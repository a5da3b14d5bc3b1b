# OpenQilin verification

A Dafny model of the stateful parts of OpenQilin, with proofs of what they guarantee over whole runs.
`dafny verify dfyconfig.toml` checks everything.

| module | what it models |
|---|---|
| `PyText` | the Python string operations the code relies on |
| `Chunking`, `RoleOrder`, `ResponseOrder`, `ResponseRuns` | splitting answers for Discord, and the ordered answers of several role bots to one message |
| `MessageLedger`, `Delivery`, `Publisher`, `PublisherRuns` | delivery of one message: idempotency claim, retry loop, ledger, dead letters, replay |
| `JoinedKeys`, `DeliveryKeys` | keys of joined fields, and which requests share a delivery key |
| `StreamOrdering` | duplicate and ordering guards per stream |
| `Budget`, `BudgetRuns`, `BudgetResults`, `BudgetPricing` | reservations under a row lock, statement by statement, and what rounding does to them |
| `TaskState`, `Obligations`, `ObligationResults` | policy obligations and the reservation service behind them |
| `IngressDedupe`, `IngressRuns` | admission under an idempotency key, and restarts |
| `Slugs`, `ProjectLifecycle`, `ProjectMoves`, `ProjectSpaces`, `ProjectRuns` | the project lifecycle, channel bindings, and the endpoints that move both |
| `GovernanceLog`, `GovernanceAgents`, `GovernanceRuns`, `GovernanceDecisions`, `Gate003`, `Gate003Interleaved`, `Gate003Exact`, `Gate003Tight` | the executive agents over the shared artifact log |

Code that changes state in place is a class whose methods are proved against a specification function;
the lemmas then speak about that function and about runs of it. Concurrency is a step system over those
functions. The ACP client, the budget client, language models, databases and Discord are adversaries:
whatever they answer, and wherever they fail, is a parameter.

## Assumptions

- One repository call is one step. Read-modify-write inside a repository call is not interleaved, so lost
  updates of whole project documents, of task rows and of artifact revision numbers are not modelled.
  Two requests join more than one call into a step: a binding transition finds the row and updates it, and
  finalizing a completion records the owner's notification and then makes the transition.
- The exclusive row lock of `SELECT ... FOR UPDATE` lasts until the transaction ends, and a later statement
  of the same transaction sees what is committed by then (read committed).
- Hashes are injective. Identifiers drawn from `uuid4` are distinct and never empty. `created_at` and
  `updated_at` increase with every write of their table.
- Claims on the ingress store are atomic. Restart empties memory and keeps the tables.
- Only the CSO, CEO and CWO handlers write review, decision and co-approval records.
- Characters other than those with ASCII images under `lower` and `upper` stand for themselves.

## Where the code differs from what it says or is meant to do

- `_ACTIVE_STATUSES` is meant to cover every live task, but leaves out `authorized`. After a restart such a
  task can be submitted again. `IngressRuns.RestartIsSafeIff` gives the exact condition.
- `record_initialization` accepts paused projects, since the table lets paused become active, so a
  project can get a second channel binding. `ProjectRuns.SecondSlotIff`.
- `resume` accepts approved projects for the same reason, so a project can become active without the CWO's
  initialization. `ProjectLifecycle.InitializationSkippedIff`.
- The CEO strips a proposal id before counting, and records the decision under the id as given. For ids the
  CWO makes up from a trace id that ends in whitespace GATE-003 never bites. `Gate003.BoundIsExact`.
- USD estimates are compared exactly and stored with six decimals, so prices that round down add up
  unnoticed. `BudgetPricing.PriceBoundIsExact`; the reservation service's own price is not affected.
- Delivery keys are joined with colons and nothing is escaped, so requests that differ can share one.
  `DeliveryKeys.KeysCollideIff`.
- A replayed receipt equals the original except that empty ids and codes come back as absent.
  `Publisher.NormalizedIsSame`.
- The name lookup returns nothing, or another binding, when a later updated binding in the guild has the
  same truncated slug. `ProjectSpaces.CreatedNameFindsBinding`.
- A group message that mentions no bot is addressed to a role no bot has (a direct message is not: there the
  placeholder becomes the bot it was sent to), so the secretary waits for its timeout, and the entry of such
  a message, when it answers alone, is never removed. `ResponseRuns.PlaceholderBlocksSecretary`,
  `ResponseRuns.PlaceholderKeepsEntry`. In general a listed role without a bot holds up exactly the roles
  behind it (`ResponseRuns.ServedIff`) and keeps the entry (`ResponseRuns.EntryGoesIff`).
- Flows of one proposal that overlap can read each other's review outcome back, and GATE-003's bound of two
  then fails. It holds in every run if and only if no two flows of a proposal in one project may be between
  writing their review and reading it back at once; with k of them the bound is 2k, exactly.
  `Gate003Tight.TwoIsKeptIff`, `Gate003Tight.WaitingBoundIsExact`, `Gate003Tight.OverlapIsUnbounded`.
- A chunk size below one makes the splitting loop endless. `Chunking.TerminatesIff`; the caller passes 200
  or more.
- `record_completion_approval` is described as finalizing once both have approved; it does not.
  `ProjectLifecycle.ApprovalNeverFinalizes`.
- Owner co-approval is looked for before workforce initialization, and its absence only noted.
  `GovernanceRuns.OwnerIsOnlyNoted`.
- The per-type cap on `cso_review` documents is not enforced by the Postgres repository.
  `GovernanceRuns.ReviewsAreUncapped`.
- Finalizing records the owner's notification even when the completion is then refused.
  `ProjectLifecycle.RefusalNotifiesIff`.

## Model

| member | source | states |
|---|---|---|
| `Chunking.ChunkDiscordMessage` | src/openqilin/apps/discord_bot_worker.py:522-546 | blank text gives the placeholder alone, whatever the size; otherwise every chunk is non-empty, fits, has no outer whitespace, and the chunks in order are the stripped text with only whitespace missing between them; their number is linear in length over size |
| `Chunking.TerminatesIff` | src/openqilin/apps/discord_bot_worker.py:531-545 | over a non-blank text the loop ends if and only if the size is at least one |
| `Chunking.ChunksPreserveText` | src/openqilin/apps/discord_bot_worker.py:531-546 | the same preservation and size property for every trimmed text and every size from 1 on, by induction over the cuts |
| `Chunking.SplitKeepsBothSides` | src/openqilin/apps/discord_bot_worker.py:531-546 | cutting a trimmed text anywhere inside leaves two trimmed, non-empty sides, so the empty-chunk fallback is unreachable |
| `Chunking.CutPrefersBoundaries` | src/openqilin/apps/discord_bot_worker.py:532-540 | a newline in the second half beats a space, the last such boundary is taken, and a cut short of the maximum is always at a boundary |
| `Chunking.TwoCutsConsumeHalf` | src/openqilin/apps/discord_bot_worker.py:531-546 | two consecutive non-final cuts together consume at least half a chunk, however short a space cut is |
| `Chunking.ChunkCountBound` | src/openqilin/apps/discord_bot_worker.py:531-546 | hence the number of chunks is bounded by the length over half the size |
| `Slugs.SlugsAgree` | src/openqilin/project_spaces/binding_service.py:36-45 | the creation slug and the lookup slug are equal for every project name, although one strips whitespace first and collapses hyphens in a loop |
| `Slugs.CollapseHyphens` | src/openqilin/project_spaces/binding_repository.py:113-114 | the replace loop terminates on any string and shortens every run of hyphens to one |
| `Slugs.CreationSlugIsWords` | src/openqilin/project_spaces/binding_service.py:36-45 | independent definition: the slug is the lower-case alphanumeric words of the name joined by single hyphens |
| `Slugs.SlugIsJoinedWords` | src/openqilin/project_spaces/binding_service.py:42-44 | the same for any starting word, by induction over the scanned text |
| `Slugs.CreationSlugIsSlug` | src/openqilin/project_spaces/binding_service.py:36-45 | no doubled and no edge hyphens, only slug characters |
| `Slugs.SlugIdempotent` | src/openqilin/project_spaces/binding_service.py:36-45 | slugifying a slug changes nothing |
| `Slugs.ChannelNameIsNormal` | src/openqilin/project_spaces/binding_repository.py:90-92 | a created channel name is never blank and survives the normalisation of the lookup |
| `Slugs.ChannelNamesMeetIff` | src/openqilin/project_spaces/binding_service.py:36-45 | two projects get the same channel name if and only if their slugs agree in the first 92 characters |
| `RoleOrder.OrderedRolesCorrect` | src/openqilin/apps/discord_bot_worker.py:568-578 | the computed order lists exactly the roles named, case and outer whitespace aside, each once, by priority and then name; the runtime agent alone if none is |
| `RoleOrder.OrderDependsOnlyOnRoleSet` | src/openqilin/apps/discord_bot_worker.py:568-578 | two events compute the same order if and only if they address the same set of roles |
| `RoleOrder.SortedUnique` | src/openqilin/apps/discord_bot_worker.py:578 | a strictly sorted role list is determined by its elements |
| `RoleOrder.RankedRolesFirst` | src/openqilin/apps/discord_bot_worker.py:556-565 | the six ranked roles precede any other role, in their fixed order |
| `ResponseOrder.RoleResponseOrderingState.Exit` | src/openqilin/apps/discord_bot_worker.py:366-375 | the exit loop leaves next_index exactly at the end of the longest completed prefix |
| `ResponseOrder.DiscordIngressFanIn.EnterLookup` | src/openqilin/apps/discord_bot_worker.py:330-339 | an existing state of the message is shared, otherwise a fresh one is stored, nothing else changes |
| `ResponseOrder.DiscordIngressFanIn.CleanUp` | src/openqilin/apps/discord_bot_worker.py:376-380 | the map entry goes only when finished and only if it is still that very state |
| `ResponseOrder.PrefixUnique` | src/openqilin/apps/discord_bot_worker.py:368-373 | the longest completed prefix is unique, so the loop and the invariant name the same index |
| `ResponseOrder.ArriveStep` | src/openqilin/apps/discord_bot_worker.py:325-339 | the look-up or creation on the objects is the arrival step of the interleaving model |
| `ResponseOrder.ExitStep` | src/openqilin/apps/discord_bot_worker.py:366-375 | the exit on the shared object is the exit step, with the same finished flag |
| `ResponseOrder.CleanUpStep` | src/openqilin/apps/discord_bot_worker.py:376-380 | the removal on the map is the clean-up step |
| `ResponseOrder.NextIndexAlwaysLongestPrefix` | src/openqilin/apps/discord_bot_worker.py:322-380 | in every interleaving, timeouts included and whatever list each event has computed, next_index of every state is the length of its longest completed prefix |
| `ResponseOrder.CompletedAreExited` | src/openqilin/apps/discord_bot_worker.py:366-367 | likewise every state records exactly the roles that have exited through it |
| `ResponseOrder.EndReportedIff` | src/openqilin/apps/discord_bot_worker.py:374 | an exit reports the end if and only if as many roles have exited through its state as its list is long, whichever they are |
| `ResponseOrder.StartsIff` | src/openqilin/apps/discord_bot_worker.py:340-356 | who may start, in any interleaving: a waiting event if and only if its role is the first on the list that has not exited, or the whole list has |
| `ResponseRuns.ComputedListsAgree` | src/openqilin/apps/discord_bot_worker.py:326-329 | bots that are all among the recipients compute one list, without repetitions, that holds them all |
| `ResponseRuns.BookkeepingHolds` | src/openqilin/apps/discord_bot_worker.py:322-380 | with agreed lists and at most one event per role, some roles perhaps without: one state, completed roles are those exited, and the end is reported only when all events have exited and no role is missing |
| `ResponseRuns.EntryGoesIff` | src/openqilin/apps/discord_bot_worker.py:376-380 | the map entry is there for every waiting or delivering event; once all coroutines are done it is gone if and only if every listed role had an event, so a missing role keeps it for ever |
| `ResponseRuns.OneAtATimeInOrder` | src/openqilin/apps/discord_bot_worker.py:322-380 | without timeouts no two events deliver together and a role delivers only after all events of earlier roles have exited |
| `ResponseRuns.Progress` | src/openqilin/apps/discord_bot_worker.py:340-356 | no deadlock before a gap: with all arrived and every earlier role present, someone delivers or may start until the role has exited |
| `ResponseRuns.RunsAreBounded` | src/openqilin/apps/discord_bot_worker.py:322-380 | every run has at most four steps per event, and one of that length has finished everybody |
| `ResponseRuns.ServedIff` | src/openqilin/apps/discord_bot_worker.py:340-356 | in every run without timeouts that can only go on with one, an event has been served if and only if every role listed before its own has an event |
| `ResponseRuns.DeliversIff` | src/openqilin/apps/discord_bot_worker.py:340-356 | an event can deliver without any timeout if and only if every role listed before its own has an event |
| `ResponseRuns.MissingRoleBlocks` | src/openqilin/apps/discord_bot_worker.py:340-356 | with any lists, and whoever else times out, an event that does not time out itself delivers only if some computed list has every role before its own filled |
| `ResponseRuns.PlaceholderBlocksSecretary` | src/openqilin/apps/discord_bot_worker.py:326-356 | for a group message that mentions no bot, addressed to the placeholder runtime, the secretary never answers before its own timeout, whichever bots answer |
| `ResponseRuns.PlaceholderKeepsEntry` | src/openqilin/apps/discord_bot_worker.py:376-380 | and when the secretary answers alone, with the list it computes for such a message, its map entry is never removed |
| `MessageLedger.LegalHistories` | src/openqilin/communication_gateway/storage/message_ledger.py:14-19 | a history is legal if and only if it is prepared, optionally sent, then acked or nacked, or a beginning of that, acked only after sent |
| `MessageLedger.LocalMessageLedger.BeginDispatch` | src/openqilin/communication_gateway/storage/message_ledger.py:38-87 | one fresh prepared record, listed under its task id, all else unchanged |
| `MessageLedger.LocalMessageLedger.MarkSent` | src/openqilin/communication_gateway/storage/message_ledger.py:89-119 | moves a prepared record and raises otherwise, changing nothing |
| `MessageLedger.LocalMessageLedger.MarkAcked` | src/openqilin/communication_gateway/storage/message_ledger.py:121-150 | moves a sent record and raises otherwise, changing nothing |
| `MessageLedger.LocalMessageLedger.MarkNacked` | src/openqilin/communication_gateway/storage/message_ledger.py:152-184 | moves a prepared or sent record and raises otherwise, changing nothing |
| `MessageLedger.LocalMessageLedger.ListRecordsForTask` | src/openqilin/communication_gateway/storage/message_ledger.py:191-195 | returns the records the index names, in order |
| `MessageLedger.ApplyKeepsWellformed` | src/openqilin/communication_gateway/storage/message_ledger.py:38-219 | every call, accepted or rejected, keeps state = last history entry, legal histories, and the per-task index equal to the filtered records |
| `MessageLedger.TerminalRecordsStay` | src/openqilin/communication_gateway/storage/message_ledger.py:212-219 | no call changes an acked or nacked record |
| `MessageLedger.ReachableLedger` | src/openqilin/communication_gateway/storage/message_ledger.py:38-219 | both of these over every sequence of calls |
| `MessageLedger.TaskListIsFilter` | src/openqilin/communication_gateway/storage/message_ledger.py:191-195 | the list of a task is all records filtered by it, in creation order |
| `Delivery.BackoffGrowsToCap` | src/openqilin/communication_gateway/delivery/retry_scheduler.py:81-88 | backoff never shrinks with the attempt and never exceeds the cap |
| `Delivery.BackoffDoubles` | src/openqilin/communication_gateway/delivery/retry_scheduler.py:81-88 | no wait first, the base before the second attempt, then doubling, all up to the cap |
| `Delivery.LocalCommunicationIdempotencyStore.Claim` | src/openqilin/communication_gateway/storage/idempotency_store.py:68-98 | new, replay, conflict or in progress by key and payload; only a new key is stored |
| `Delivery.LocalCommunicationIdempotencyStore.IncrementAttempt` | src/openqilin/communication_gateway/storage/idempotency_store.py:100-113 | adds one attempt to a known key, nothing else |
| `Delivery.LocalCommunicationIdempotencyStore.Complete` | src/openqilin/communication_gateway/storage/idempotency_store.py:115-137 | stores the result of a known key, nothing else |
| `Delivery.LocalDeadLetterWriter.WriteDeadLetter` | src/openqilin/communication_gateway/delivery/dlq_writer.py:52-108 | appends exactly one dead letter with a fresh id |
| `Delivery.MessageAckHandler.Handle` | src/openqilin/communication_gateway/delivery/ack_handler.py:28-57 | drives the sent record to acked or nacked by the receipt and reports which |
| `Publisher.CacheRoundTrip` | src/openqilin/communication_gateway/delivery/publisher.py:319-352 | decoding the cached result of a receipt gives the receipt with empty ids and codes read as absent |
| `Publisher.NormalizedIsSame` | src/openqilin/communication_gateway/delivery/publisher.py:319-352 | that is the receipt itself if and only if no id or code is the empty string |
| `Publisher.LocalDeliveryPublisher.PublishMessage` | src/openqilin/communication_gateway/delivery/publisher.py:94-286 | the claim, the retry loop and the conclusion compute exactly the specification function on all four stores, for every ACP outcome, and no ledger error ever escapes |
| `Publisher.LocalDeliveryPublisher.Attempt` | src/openqilin/communication_gateway/delivery/publisher.py:156-217 | one pass of the loop: one record, one send, one settled answer |
| `Publisher.LocalDeliveryPublisher.Conclude` | src/openqilin/communication_gateway/delivery/publisher.py:238-286 | the dead letter and the completed claim at the end of the loop |
| `PublisherRuns.DeliverIsFold` | src/openqilin/communication_gateway/delivery/publisher.py:152-286 | the loop terminates and equals a fold over the outcome stream of the client |
| `PublisherRuns.WinningPublishIsFold` | src/openqilin/communication_gateway/delivery/publisher.py:152-286 | a winning call makes n sends and n records, 1 <= n <= max(1, max_attempts), all but the last answered retryably, and gives up retrying only when attempts are used up |
| `PublisherRuns.WinningRecords` | src/openqilin/communication_gateway/delivery/publisher.py:154-217 | its records carry attempts 1 to n and what the client answered to each, all but the last nacked retryable, the last acked if and only if acknowledged |
| `PublisherRuns.WinningClaim` | src/openqilin/communication_gateway/delivery/publisher.py:152-286 | the stored attempt count is n; an unexpected exception leaves the key in progress, any other ending completes it with the returned receipt, accepted if and only if the last send was acked |
| `PublisherRuns.WinningDeadLetter` | src/openqilin/communication_gateway/delivery/publisher.py:238-286 | one dead letter if and only if the last send failed retryably; it names the request, the last record, n and the last error, and the receipt carries its id |
| `PublisherRuns.WinningReceipt` | src/openqilin/communication_gateway/delivery/publisher.py:156-286 | without a dead letter the caller is told the client's own last word, field by field |
| `PublisherRuns.LaterCallIsInert` | src/openqilin/communication_gateway/delivery/publisher.py:126-150 | a call on a claimed key changes nothing and is answered from the claim |
| `PublisherRuns.EffectivelyOnce` | src/openqilin/communication_gateway/delivery/publisher.py:94-150 | over every sequence of calls only the first call of a key does anything; later ones replay its receipt, are refused as a conflict, or are refused as in progress after a crash |
| `PublisherRuns.RunKeepsLedgerWellformed` | src/openqilin/communication_gateway/delivery/publisher.py:94-286 | every run keeps the ledger invariant |
| `PublisherRuns.DeadLetterExactlyOnExhaustion` | src/openqilin/communication_gateway/delivery/publisher.py:229-286 | over a run a call adds a dead letter if and only if it is the first of its key and its loop ended in a retryable failure |
| `PublisherRuns.AtMostOneDeadLetterPerKey` | src/openqilin/communication_gateway/delivery/publisher.py:229-286 | no two dead letters of a run have the same delivery key |
| `PublisherRuns.ReturnClosesRecords` | src/openqilin/communication_gateway/delivery/publisher.py:154-286 | a call that returns leaves none of its records open |
| `PublisherRuns.NoRecordLeftOpen` | src/openqilin/communication_gateway/delivery/publisher.py:154-286 | in a run without exceptions every record is terminal between calls |
| `JoinedKeys.JoinedTellsFields` | src/openqilin/communication_gateway/storage/idempotency_store.py:51-55 | joined with colons, lists of fields of which one at most may contain colons are equal if their joins are |
| `JoinedKeys.OneFieldShows` | src/openqilin/communication_gateway/storage/idempotency_store.py:51-55 | a difference in one field alone always shows, whatever the fields contain |
| `JoinedKeys.TwoFreeFieldsCollide` | src/openqilin/communication_gateway/storage/idempotency_store.py:51-55 | for any two fields that may contain colons, two lists that differ have the same join |
| `DeliveryKeys.SameKeyIff` | src/openqilin/communication_gateway/storage/idempotency_store.py:51-55 | requests that differ in one part at most, or have colons in one part at most, share a key if and only if connector, principal, project, idempotency key and both message ids agree |
| `DeliveryKeys.KeysCollideIff` | src/openqilin/communication_gateway/storage/idempotency_store.py:51-55 | requests that differ can share a key if and only if colons may come in through two or more of the six parts |
| `DeliveryKeys.CallSendsIff` | src/openqilin/communication_gateway/delivery/publisher.py:97-150 | over a run, a call told apart in that way from the earlier ones sends something if and only if it differs from each of them in some part, and otherwise changes nothing |
| `StreamOrdering.LocalOrderingValidator.Validate` | src/openqilin/communication_gateway/validators/ordering_validator.py:27-46 | the two dictionaries refine the accepted history: rejected as duplicate if and only if the id was accepted in that stream, as out of order if and only if some accepted message of the stream is younger; rejection leaves the history unchanged |
| `StreamOrdering.SummaryDecides` | src/openqilin/communication_gateway/validators/ordering_validator.py:30-43 | the dictionary tests decide those two questions about the whole history |
| `StreamOrdering.SummaryGrows` | src/openqilin/communication_gateway/validators/ordering_validator.py:45-46 | storing the new id and timestamp keeps ids and maximum of every stream right |
| `StreamOrdering.AcceptedIsWellOrdered` | src/openqilin/communication_gateway/validators/ordering_validator.py:27-46 | over any calls, each stream accepts distinct ids and non-decreasing timestamps |
| `StreamOrdering.StreamsAreIndependent` | src/openqilin/communication_gateway/validators/ordering_validator.py:27-51 | what a run accepts in one stream is what the calls of that stream alone would have had accepted |
| `StreamOrdering.SameStreamIff` | src/openqilin/communication_gateway/validators/ordering_validator.py:49-51 | with colons in one field at most, messages share a stream if and only if connector, principal, project and target agree |
| `StreamOrdering.FirstOfItsPartiesIsAccepted` | src/openqilin/communication_gateway/validators/ordering_validator.py:27-51 | so the first message between its parties is always accepted |
| `Budget.EstimateIsExact` | src/openqilin/budget_runtime/cost_evaluator.py:63-73 | at a scale of 10^-8 USD no estimate loses anything |
| `Budget.PricePerRequestedToken` | src/openqilin/budget_runtime/cost_evaluator.py:10-27 | tokens and price of a request as multiples of the requested tokens, for every model class |
| `Budget.PostgresBudgetRuntimeClient.ReserveForProject` | src/openqilin/budget_runtime/client.py:104-179 | one transaction: missing allocation, quota breach, currency breach or one reserved row, by the outstanding sums |
| `Budget.PostgresBudgetRuntimeClient.Reserve` | src/openqilin/budget_runtime/client.py:35-66 | a row is added if and only if the decision is allow; the default project is tried only when the allocation is missing; database errors become uncertain |
| `Budget.PostgresBudgetRuntimeClient.Close` | src/openqilin/data_access/repositories/postgres/budget_repository.py:96-174 | settle and release take one active row of the id out of reserved, or do nothing when there is none |
| `BudgetRuns.LimitsStay` | src/openqilin/budget_runtime/client.py:117-171 | a step of any interleaving keeps every project within its limits |
| `BudgetRuns.OutstandingOfClose` | src/openqilin/budget_runtime/client.py:131-137 | closing a reserved row takes exactly its tokens and price out of its project's sum and nothing out of any other |
| `BudgetRuns.CheckedRowFits` | src/openqilin/budget_runtime/client.py:145-170 | a row that passed the check fits the limit even when its price is rounded up for storage |
| `BudgetRuns.OthersStay` | src/openqilin/budget_runtime/client.py:117-171 | what a transaction has read stays an upper bound while it holds the lock, whatever others do |
| `BudgetRuns.InvAlways` | src/openqilin/budget_runtime/client.py:35-66 | the invariant behind the results holds in every run of reserve, settle and release steps with failures anywhere |
| `BudgetResults.NeverOverReserved` | src/openqilin/budget_runtime/client.py:104-179 | in every interleaving outstanding tokens and stored USD of each project stay within its limits, fallbacks included |
| `BudgetResults.FallbackOnlyWhenMissing` | src/openqilin/budget_runtime/client.py:38-49 | a row is charged to the request's own project, stripped, if that has an allocation, and only otherwise to the default project; a breach never falls through |
| `BudgetResults.AllowedIsReserved` | src/openqilin/budget_runtime/client.py:164-179 | an allowed call is backed by exactly one committed row, the one it names, with two tokens per requested one and the estimated price up to rounding |
| `BudgetResults.DecisionIsExact` | src/openqilin/budget_runtime/client.py:145-163 | refused if and only if a limit would be exceeded, tokens first, with the plain difference as remainder |
| `BudgetResults.RemainderAtCommit` | src/openqilin/budget_runtime/client.py:172-179 | the answer on allow, its remainder never the clamp and never more than what is left |
| `BudgetResults.RemainderIsExact` | src/openqilin/budget_runtime/client.py:130-179 | it is exactly what is left if nothing of the project was settled or released between sum and commit |
| `BudgetResults.FailuresAreUncertain` | src/openqilin/budget_runtime/client.py:35-66 | a call the database fails in is answered uncertain; only a lost acknowledgement leaves its row |
| `BudgetResults.NoAllocationIsUncertain` | src/openqilin/budget_runtime/client.py:38-66 | without own and default allocation the answer is uncertain and nothing is written, and only then with that reason |
| `BudgetPricing.LoneCallReserves` | src/openqilin/budget_runtime/client.py:35-179 | an uninterrupted call of the step system equals the one-call function the class is proved against |
| `BudgetPricing.AllowedAgainOnceClosed` | src/openqilin/budget_runtime/client.py:131-179 | once the row of an allowed call is settled or released and nothing else has changed, the same request of any other task is allowed again with the same remainder |
| `BudgetPricing.PriceWithinLimit` | src/openqilin/budget_runtime/client.py:154-170 | prices that do not round down keep even the unrounded sum within the limit |
| `BudgetPricing.PriceBoundIsExact` | migrations/versions/20260319_0012_create_budget_reservations_table.py:28 | exactly the requests whose price rounds down in the six-decimal column can add up past the currency limit |
| `BudgetPricing.ServicePriceIsStoredExactly` | src/openqilin/budget_runtime/reservation_service.py:41-51 | the reservation service's own request is stored without rounding |
| `Obligations.BudgetReservationService.ReserveWithFailClosed` | src/openqilin/budget_runtime/reservation_service.py:34-102 | computes the specification function: the first answer per id is cached and repeated |
| `Obligations.ObligationDispatcher.DispatchObligation` | src/openqilin/policy_runtime_integration/obligations.py:105-252 | each handler's effect and outcome, unknown obligations blocking |
| `Obligations.ObligationDispatcher.Apply` | src/openqilin/policy_runtime_integration/obligations.py:76-102 | the ordering loop and the execution loop with its break compute the specification fold |
| `Obligations.TaskRepository.UpdateTaskStatus` | src/openqilin/data_access/repositories/postgres/task_repository.py:111-168 | changes a stored status if and only if the guard allows it; a missing row is no error |
| `ObligationResults.OrderedIsCanonical` | src/openqilin/policy_runtime_integration/obligations.py:84-87 | known obligations once each in canonical order, then the unknown ones as given; nothing added or lost |
| `ObligationResults.OrderIgnoresArrangement` | src/openqilin/policy_runtime_integration/obligations.py:84-87 | two requests are applied alike if and only if they ask for the same known and list the same unknown obligations |
| `ObligationResults.ExecutedIsPrefix` | src/openqilin/policy_runtime_integration/obligations.py:89-95 | the executed list is a prefix, complete unless its last one blocked or the next one raised |
| `ObligationResults.ApprovalPrecludesReservation` | src/openqilin/policy_runtime_integration/obligations.py:162-184 | if owner approval is asked for, budget is never touched and the run stops there |
| `ObligationResults.FirstAskIsFailClosed` | src/openqilin/budget_runtime/reservation_service.py:34-102 | a first request is allowed if and only if the client answers it with allow; an exception, deny, a hard breach and an uncertain answer are refused, each with its code |
| `ObligationResults.ProceedsIff` | src/openqilin/policy_runtime_integration/obligations.py:76-102 | nothing blocks if and only if nothing unknown and no approval is asked for and budget, if asked for, was allowed before or is now |
| `ObligationResults.ProceedsOnlyOnAllowance` | src/openqilin/budget_runtime/reservation_service.py:34-102 | over any run of applications one proceeds if and only if it asks for nothing but audit, budget and sandbox, and budget, if asked for, was answered with allow the one time the client was asked about its task |
| `ObligationResults.SatisfiedIff` | src/openqilin/policy_runtime_integration/obligations.py:97 | all satisfied if and only if, further, audit and sandbox succeed where asked for |
| `ObligationResults.ClientAskedOnce` | src/openqilin/budget_runtime/reservation_service.py:34-102 | over any run of applications the client is asked at most once per id, and the cached outcome is allowed if and only if it answered allow |
| `ObligationResults.OutcomesAreFinal` | src/openqilin/budget_runtime/reservation_service.py:37-39 | a known outcome is the same at every later point of the run |
| `TaskState.FinishedStaysFinished` | src/openqilin/task_orchestrator/state/transition_guard.py:15-26 | completed, failed and cancelled are left by no update |
| `TaskState.UpdatesAreRound` | src/openqilin/task_orchestrator/state/transition_guard.py:15-26 | the unfinished statuses form a round; besides, a task can be blocked, cancelled or failed from all of them, completed from dispatched and running, and dispatched again from blocked, and nothing else |
| `IngressDedupe.IngressDedupeStore.Claim` | src/openqilin/control_plane/idempotency/ingress_dedupe.py:24-52 | new, replay or conflict; only a new key is stored |
| `IngressDedupe.IngressDedupeStore.BindTaskId` | src/openqilin/control_plane/idempotency/ingress_dedupe.py:54-66 | binds a claimed key, keeping its hash, and ignores an unclaimed one |
| `IngressDedupe.AdmissionIdempotencyCoordinator.Resolve` | src/openqilin/task_orchestrator/admission/idempotency.py:59-98 | admits a new key once, replays the youngest stored one of a known key, rejects another payload |
| `IngressDedupe.RecoverClaims` | src/openqilin/control_plane/api/dependencies.py:400-414 | the recovery loop computes the specification fold, count included |
| `IngressDedupe.RecoveryRestoresClaims` | src/openqilin/control_plane/api/dependencies.py:400-414 | with distinct keys every recoverable row gets exactly its own claim back and the count is right |
| `IngressRuns.StepKeeps` | src/openqilin/task_orchestrator/admission/idempotency.py:59-98 | every step, a restart with nothing authorized included, keeps at most one unfinished row or pending creation per key, claimed with its payload |
| `IngressRuns.NeverTwoLiveTasks` | src/openqilin/control_plane/api/dependencies.py:397-414 | no run of admissions, status changes and safe restarts has two unfinished rows with the same principal and the same idempotency key |
| `IngressRuns.ReplayReturnsOwnTask` | src/openqilin/task_orchestrator/admission/idempotency.py:78-90 | a replay of an unfinished one returns its own id, after a restart too; another payload is a conflict |
| `IngressRuns.ClaimIsNewIff` | src/openqilin/control_plane/idempotency/ingress_dedupe.py:38-52 | between restarts a claim is new if and only if nobody claimed for the same principal and the same idempotency key before, and a replay if and only if the first who did had the same payload |
| `IngressRuns.RestartReportsLiveTasks` | src/openqilin/control_plane/api/dependencies.py:400-414 | the reported number of claims is the number of unfinished rows |
| `IngressRuns.RestartIsSafeIff` | src/openqilin/control_plane/api/dependencies.py:115-117 | a restart keeps the guarantee for every continuation if and only if nothing is authorized at that moment |
| `IngressRuns.AuthorizedTaskIsDuplicated` | src/openqilin/control_plane/api/dependencies.py:115-117 | otherwise resubmitting an authorized one creates a twin |
| `IngressRuns.AuthorizedIsReachable` | src/openqilin/task_orchestrator/state/transition_guard.py:17 | and such a moment is reachable |
| `ProjectLifecycle.ParseIsExact` | src/openqilin/control_plane/governance/project_lifecycle.py:51-60 | a text is accepted if and only if it spells a status up to case and outer whitespace, and means that one |
| `ProjectLifecycle.PostgresProjectRepository.TransitionProjectStatus` | src/openqilin/data_access/repositories/postgres/project_repository.py:118-166 | moves along the table only, completion behind its own bar |
| `ProjectLifecycle.PostgresProjectRepository.RecordProposalApproval` | src/openqilin/data_access/repositories/postgres/project_repository.py:209-267 | one approval per role, the completing one promotes |
| `ProjectLifecycle.PostgresProjectRepository.RecordCompletionApproval` | src/openqilin/data_access/repositories/postgres/project_repository.py:325-381 | one approval per role on an active project with a report |
| `ProjectLifecycle.PostgresProjectRepository.RecordInitialization` | src/openqilin/data_access/repositories/postgres/project_repository.py:409-448 | activates whatever the table lets become active |
| `ProjectLifecycle.Handle` | src/openqilin/control_plane/handlers/governance_handler.py:141-553 | role guard first, then the repository operation, for every operation |
| `ProjectLifecycle.PerformKeepsGoverned` | src/openqilin/control_plane/handlers/governance_handler.py:141-553 | every stored project keeps a legal history; it is past proposed if and only if it has all three approvals, and once completed has the report, both approvals and the notification |
| `ProjectLifecycle.EachStageOnce` | src/openqilin/control_plane/governance/project_lifecycle.py:29-37 | a project is approved at most once, activated from approved at most once, completed or terminated at most once, archived at most once |
| `ProjectLifecycle.EndingsAreExecutive` | src/openqilin/control_plane/handlers/governance_handler.py:382-553 | only CEO and CWO end projects; owner and project manager reach only their own transitions |
| `ProjectLifecycle.RefusalNotifiesIff` | src/openqilin/control_plane/handlers/governance_handler.py:398-420 | a refused finalization records the notification if and only if a CEO or CWO asks, the owner was not notified, and the project is not active with report and both approvals |
| `ProjectLifecycle.ApprovalNeverFinalizes` | src/openqilin/data_access/repositories/postgres/project_repository.py:373-381 | no completion approval changes any status or history |
| `ProjectLifecycle.InitializationSkippedIff` | src/openqilin/control_plane/handlers/governance_handler.py:490-509 | a project becomes active without initialization if and only if resume is sent for an approved one |
| `ProjectMoves.MovesExactly` | src/openqilin/control_plane/handlers/governance_handler.py:141-553 | role guard, table and completion bar together: the status after each operation of each role, case and outer whitespace of the role aside |
| `ProjectMoves.RecordsExactly` | src/openqilin/control_plane/handlers/governance_handler.py:177-380 | who leaves which approvals and reports, and when |
| `ProjectMoves.RefusalsInOrder` | src/openqilin/control_plane/handlers/governance_handler.py:141-553 | a refusal names the role first, then the project, then the status, then a missing report |
| `ProjectMoves.CreatedIff` | src/openqilin/control_plane/handlers/governance_handler.py:141-175 | a project comes into being by a proposal of owner, CEO or CWO and in no other way, never goes, and no operation touches another |
| `ProjectMoves.RolesApproveOnce` | src/openqilin/data_access/repositories/postgres/project_repository.py:236-252 | approving again as the same actor changes nothing; another actor of the role is refused |
| `ProjectMoves.EveryProjectCanBeArchived` | src/openqilin/control_plane/governance/project_lifecycle.py:29-37 | no project is ever stuck: whatever it has been through, the same six requests archive it |
| `ProjectSpaces.ProjectSpaceBindingService.CreateAndBind` | src/openqilin/project_spaces/binding_service.py:60-95 | one active binding if channel and insert succeed, nothing otherwise |
| `ProjectSpaces.ProjectSpaceBindingService.Transition` | src/openqilin/project_spaces/binding_service.py:97-137 | the new state is committed even if the channel operation then fails; which of the answers comes back is exact, a failed channel included; illegal events change nothing |
| `ProjectSpaces.EventsGoForward` | src/openqilin/project_spaces/binding_service.py:15-34 | an event is legal if and only if it leads forward without leaping over activation |
| `ProjectSpaces.FindByChannelName` | src/openqilin/project_spaces/binding_repository.py:87-118 | the loop returns the first listed row whose inferred name matches |
| `ProjectSpaces.GetBindingByName` | src/openqilin/project_spaces/binding_service.py:139-149 | and only if active |
| `ProjectSpaces.CreatedNameFindsBinding` | src/openqilin/project_spaces/binding_service.py:139-149 | looking up a created name returns its binding if and only if it is active and no later updated binding of the guild has the same truncated slug |
| `ProjectRuns.StepKeeps` | src/openqilin/control_plane/routers/governance.py:532-567 | every step of every interleaving keeps bindings, pending channel operations and project statuses in agreement |
| `ProjectRuns.LifecycleAndBindingAgree` | src/openqilin/control_plane/routers/governance.py:1008-1036 | archived binding: completed or archived; locked: terminated or archived; active or paused project: only active bindings |
| `ProjectRuns.GovernedAlways` | src/openqilin/control_plane/routers/governance.py:532-567 | and every project of every run stays governed |
| `ProjectRuns.SecondSlotIff` | src/openqilin/control_plane/routers/governance.py:532-567 | a step gives some project a second binding if and only if it initializes a paused project that already has one |
| `ProjectRuns.AtMostOneBinding` | src/openqilin/data_access/repositories/postgres/project_repository.py:425-448 | without such a step every run has at most one binding per project |
| `ProjectRuns.ReinitializationBindsTwice` | src/openqilin/control_plane/routers/governance.py:554-567 | and such a step, its channel created, does add one |
| `ProjectRuns.ReinitializationIsReachable` | src/openqilin/data_access/repositories/postgres/project_repository.py:425-448 | and a run gets there: created, approved by all three, initialized with its channel, paused |
| `ProjectRuns.TerminationLocks` | src/openqilin/control_plane/routers/governance.py:1328-1345 | terminating a project and running the second half of the endpoint locks its channel binding |
| `ProjectRuns.CompletionArchives` | src/openqilin/control_plane/routers/governance.py:1022-1040 | completing it archives the binding |
| `GovernanceLog.PostgresGovernanceArtifactRepository.WriteProjectArtifact` | src/openqilin/data_access/repositories/postgres/governance_artifact_repository.py:55-176 | appends one revision if id, type, role, status, type cap and total allow, otherwise changes nothing |
| `GovernanceLog.PostgresGovernanceArtifactRepository.ReadCsoReviewOutcome` | src/openqilin/agents/cwo/agent.py:416-430 | the reverse search finds the youngest review of the proposal in the project |
| `GovernanceLog.PostgresGovernanceArtifactRepository.VerifyCsoReviewRecord` | src/openqilin/agents/ceo/agent.py:384-393 | the reverse search succeeds if and only if the log holds a review of the proposal |
| `GovernanceLog.PostgresGovernanceArtifactRepository.ReadRevisionCycleCount` | src/openqilin/agents/ceo/agent.py:395-413 | the two counting loops count conflicting reviews and revision decisions of the proposal |
| `GovernanceLog.PostgresGovernanceArtifactRepository.FindCoapproval` | src/openqilin/agents/cwo/agent.py:432-442 | the search succeeds if and only if the log holds such a co-approval |
| `GovernanceLog.PostgresGovernanceArtifactRepository.FindProjectReview` | src/openqilin/agents/cwo/workforce_initializer.py:111-117 | likewise for a review of the project |
| `GovernanceLog.PostgresGovernanceArtifactRepository.FindCeoApproval` | src/openqilin/agents/cwo/workforce_initializer.py:119-124 | likewise for an approved decision |
| `GovernanceLog.PostgresGovernanceArtifactRepository.FindOwnerCoapproval` | src/openqilin/agents/cwo/workforce_initializer.py:126-131 | likewise for the owner's co-approval in the decision log |
| `GovernanceLog.WriteKeepsCap` | src/openqilin/data_access/repositories/postgres/governance_artifact_repository.py:103-118 | no write takes completion reports, decision logs or progress reports past their cap |
| `GovernanceLog.RevisionCountNeverDecreases` | src/openqilin/agents/ceo/agent.py:395-413 | the revision-cycle count of a proposal never decreases as the log grows |
| `GovernanceAgents.CSOAgent.Handle` | src/openqilin/agents/cso/agent.py:126-175 | one review record if both ids are given and the write succeeds, nothing otherwise |
| `GovernanceAgents.CeoAgent.HandleProposalReview` | src/openqilin/agents/ceo/agent.py:269-326 | GATE-005, GATE-003 and the decision record |
| `GovernanceAgents.CeoAgent.HandleCoapproval` | src/openqilin/agents/ceo/agent.py:349-382 | a co-approval only with the CWO's for the same project and approval type |
| `GovernanceAgents.CwoAgent.HandleProposalFlow` | src/openqilin/agents/cwo/agent.py:254-326 | CSO review, GATE-006, then the CEO |
| `GovernanceAgents.CwoAgent.InitializeWorkforce` | src/openqilin/agents/cwo/workforce_initializer.py:42-109 | nothing without review and approved decision; then plan, binding, charter if absent; a missing owner co-approval is only noted |
| `GovernanceAgents.CwoAgent.HandleInitialization` | src/openqilin/agents/cwo/agent.py:328-368 | completion report, complete context and chain before the co-approval |
| `GovernanceAgents.CwoAgent.HandleCoapproval` | src/openqilin/agents/cwo/agent.py:370-390 | a co-approval only with the CEO's for the same project and approval type |
| `GovernanceRuns.CwoJustified` | src/openqilin/agents/cwo/agent.py:143-154 | every CWO request appends only records whose evidence is already in the log |
| `GovernanceRuns.CeoJustified` | src/openqilin/agents/ceo/agent.py:138-148 | likewise every CEO request |
| `GovernanceRuns.RunsAreJustified` | src/openqilin/agents/ceo/agent.py:269-382 | likewise every interleaving of handlers whose guards read any earlier state of the log |
| `GovernanceRuns.TimedReadsAreEvidence` | src/openqilin/agents/cwo/workforce_initializer.py:95-104 | guards read one after the other, each at its own moment, are together the evidence of one append later on |
| `GovernanceRuns.ReviewsAreUncapped` | src/openqilin/data_access/repositories/postgres/governance_artifact_repository.py:103-118 | for every n a session ends with n reviews of a project and one more is accepted |
| `GovernanceRuns.CappedTypesFillUp` | src/openqilin/data_access/repositories/postgres/governance_artifact_repository.py:103-118 | of the capped types exactly one completion report, four decision logs and six progress reports are taken, however many are offered |
| `GovernanceRuns.ReviewsAreTakenIff` | src/openqilin/data_access/repositories/postgres/governance_artifact_repository.py:337-381 | a review is taken if and only if id, role and project status are right, whatever the log |
| `GovernanceRuns.PlanningTypesAreFive` | src/openqilin/data_access/repositories/artifacts.py:14-41 | which planning documents a project without documents takes |
| `GovernanceRuns.OversightIsTakenIff` | src/openqilin/data_access/repositories/artifacts.py:14-86 | oversight documents of the ten types are taken whatever else the project has |
| `GovernanceRuns.ManagerWritesNoCharter` | src/openqilin/data_access/repositories/postgres/governance_artifact_repository.py:337-363 | the project manager writes neither charter nor workforce plan |
| `GovernanceRuns.OwnerIsOnlyNoted` | src/openqilin/agents/cwo/workforce_initializer.py:105-109 | with or without an owner co-approval, the initialization answers the same and writes the same, unless the entry takes one of the last two places of the project |
| `GovernanceRuns.OwnerCanTakeLastPlace` | src/openqilin/data_access/repositories/postgres/governance_artifact_repository.py:115-118 | in the last place it does keep the plan from being written |
| `GovernanceRuns.OwnerCanTakeCharterPlace` | src/openqilin/data_access/repositories/postgres/governance_artifact_repository.py:115-118 | in the last but one it keeps the charter from being written, so neither of the two excepted counts can be admitted in general |
| `GovernanceRuns.DecisionsAreReviewed` | src/openqilin/agents/ceo/agent.py:274-276 | every CEO decision stands after a CSO review of the same proposal |
| `GovernanceRuns.CoapprovalsAreFounded` | src/openqilin/agents/cwo/agent.py:328-390 | every co-approval goes back to a workforce initialization of its project and type, and that to a completion report, a review and a reviewed, approved decision |
| `GovernanceRuns.ProvenanceInEveryRun` | src/openqilin/agents/ceo/agent.py:349-382 | both over every interleaved run |
| `GovernanceRuns.ProvenanceInEverySession` | src/openqilin/agents/cwo/agent.py:143-154 | both over every sequence of whole requests, whatever models answer and writes fail |
| `GovernanceDecisions.DecisionIsRecorded` | src/openqilin/agents/ceo/decision_writer.py:29-59 | a decision that is answered adds one record, approved, denied or needs_revision by what was decided; a refused one adds nothing |
| `GovernanceDecisions.ReviewIsRecorded` | src/openqilin/agents/cso/agent.py:126-175 | a review adds one record with the text of its outcome |
| `GovernanceDecisions.Gate005Iff` | src/openqilin/agents/ceo/agent.py:274-276 | refused if and only if no review of the proposal counts |
| `GovernanceDecisions.Gate003Iff` | src/openqilin/agents/ceo/agent.py:278-290 | refused if and only if nothing overrides, three cycles have gone by and the outcome, the given one or that of the youngest review, is a strategic conflict |
| `GovernanceDecisions.TalkRecordsNothing` | src/openqilin/agents/ceo/agent.py:138-148 | which intents and actions can change the log at all |
| `GovernanceDecisions.ApprovalIff` | src/openqilin/agents/cwo/workforce_initializer.py:119-124 | the log of a session holds a CEO approval of a project if and only if the CEO answered a request for it with an approval; a denial or revision never counts |
| `GovernanceDecisions.CoapprovalsNeedApproval` | src/openqilin/agents/cwo/agent.py:328-390 | so every co-approval of a project, of whichever kind, has such an answer behind it |
| `GovernanceDecisions.CeoCoapprovalIff` | src/openqilin/agents/ceo/agent.py:349-382 | given if and only if the CWO's is there for the type, controlled_doc_edit by default, and model and store work |
| `GovernanceDecisions.CwoCoapprovalIff` | src/openqilin/agents/cwo/agent.py:370-390 | the same of the CWO on an active project |
| `GovernanceDecisions.FlowIsDecided` | src/openqilin/agents/cwo/agent.py:254-326 | a proposal with a harmless or overridden review is always decided, and leaves its review and the decision |
| `GovernanceDecisions.UnreviewedIsDenied` | src/openqilin/agents/cwo/agent.py:285-290 | GATE-006: without a review to read back nothing is recorded |
| `GovernanceDecisions.InitializationRefusals` | src/openqilin/agents/cwo/agent.py:328-346 | what an initialization is refused for, in order |
| `GovernanceDecisions.CompleteChainInitializes` | src/openqilin/agents/cwo/workforce_initializer.py:42-109 | with report, review, approved decision and two places left it goes through |
| `GovernanceDecisions.CharterIsWrittenOnce` | src/openqilin/agents/cwo/workforce_initializer.py:42-109 | it adds one plan, and a charter only where there is none |
| `GovernanceDecisions.ChainCanBeWalked` | src/openqilin/agents/cwo/agent.py:143-154 | for every project report, proposal, initialization and both co-approvals go through from an empty log |
| `Gate003.FlowIsSubmitted` | src/openqilin/agents/cwo/agent.py:254-305 | a submission writes its review, reads exactly that outcome back and hands it to the CEO |
| `Gate003.AtMostTwoConflictDecisions` | src/openqilin/agents/ceo/agent.py:278-290 | under an id without outer whitespace the CEO decides at most twice in strategic conflict, in every run of the flow |
| `Gate003.BoundIsExact` | src/openqilin/agents/cwo/agent.py:256-258 | for the ids the CWO makes up, the bound holds in every run if and only if the trace id does not end in whitespace |
| `Gate003.ResubmissionsAddUp` | src/openqilin/agents/ceo/agent.py:270-278 | otherwise conflicting decisions pile up without limit, the count staying 0 |
| `Gate003Interleaved.LoneFlowIsProposalFlow` | src/openqilin/agents/cwo/agent.py:254-305 | the steps of a flow with nothing in between are the proposal flow |
| `Gate003Interleaved.AtMostTwoWhenReadingOwn` | src/openqilin/agents/cwo/agent.py:285-305 | a second condition, whatever number of flows overlap: if every flow happens to read its own outcome back, at most two conflicting decisions are recorded under an id without outer whitespace |
| `Gate003Exact.HeardAlways` | src/openqilin/agents/ceo/agent.py:278-290 | in every interleaving a flow that passes the gate in conflict was between its review and its reading back when the first or the second conflicting review of the proposal was written |
| `Gate003Exact.FewHaveHeard` | src/openqilin/agents/cwo/agent.py:285-305 | if never more than k flows of a proposal in one project are in between, at most k are at either of those two moments |
| `Gate003Exact.AtMostTwicePerWaiting` | src/openqilin/agents/cwo/agent.py:285-305 | hence at most 2k conflicting decisions, for any number of flows, projects and direct reviews |
| `Gate003Exact.AtMostTwoWhenExclusive` | src/openqilin/agents/cwo/agent.py:285-305 | and at most two, if no flow writes its review while another of the same proposal and project waits to read its own back |
| `Gate003Tight.TwoBatchesDecide` | src/openqilin/agents/ceo/agent.py:278-290 | for every k from 1 on an interleaving with at most k flows in between records exactly 2k conflicting decisions |
| `Gate003Tight.WaitingBoundIsExact` | src/openqilin/agents/ceo/agent.py:278-290 | a number bounds the conflicting decisions of every interleaving with at most k flows in between if and only if it is 2k or more |
| `Gate003Tight.TwoIsKeptIff` | src/openqilin/agents/ceo/agent.py:278-290 | so the bound of two holds in all of them if and only if no two flows of a proposal in one project may be in between at once |
| `Gate003Tight.OverlapIsUnbounded` | src/openqilin/agents/cwo/agent.py:285-305 | and without a limit there is no bound: for every n an interleaving of n flows records n conflicting decisions |

## Left out

- HTTP, FastAPI, Discord gateway and REST calls, Redis, SQL text, telemetry, metrics and audit records: only
  the state effects that a property needs are kept.
- Language model prompts and answers, parsing of review and decision texts, routing keywords and free-text
  handlers: their results are arbitrary.
- `LocalAcpClient.send`: one instance of the arbitrary client. `AlwaysAllowBudgetRuntimeClient`: easy.
- `budget_events` written on settlement, and settlement amounts: settled rows leave the sums either way.
- Reason texts of obligation outcomes and of budget results, and exception texts: only codes and flags.
- Cancellation of asyncio coroutines: waiting is re-checking the guard, a timeout is a step that is always
  possible.
- The time values of ledger, claim, binding and artifact records.
- The race between two claims on one ingress key inside the dictionary, and between two updates of one task row.
- Proposal messages, workforce template binding, charter files and project metadata.
- JSON values that are not strings in artifact payloads.
- Binding events `approve` and `activate` have no endpoint; the transition function covers them, the runs do not.
- Chunking.ChunkDiscordMessage: does not cover a non-blank text with a chunk size below one, because the loop then never ends (`Chunking.TerminatesIff`).
- ProjectRuns.AtMostOneBinding: does not cover runs that initialize a paused project again, because such runs do break it (`ProjectRuns.SecondSlotIff`).
- Gate003.AtMostTwoConflictDecisions: does not cover failing review writes and overrides, because with either the CEO may decide again without using up a review; interleavings are the subject of `Gate003Exact` and `Gate003Tight`.
- Gate003Interleaved.AtMostTwoWhenReadingOwn: does not cover flows that read another flow's outcome, because that depends on how many wait at once, for which `Gate003Tight.WaitingBoundIsExact` is the exact statement.
