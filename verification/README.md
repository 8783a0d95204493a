# Verified model of the alert bridge

The bridge receives product observations from a browser extension and turns them into Discord
messages, personal alerts, greetings and referral discounts. Almost all of its difficulty is in
durable protocols that must survive crashes, slow or lost provider answers and competing workers.
This project models those protocols in Dafny and proves what they promise, over every input and
every run.

Each part follows the same plan. A `...Tables` module holds the tables as maps in one `Db` value and
gives every transaction as a function of it, with the original's branches, constants and error
cases. Beside it stand modules that tell each transaction on the rows alone, without that function:
who is claimed, matched or paid, when an operation succeeds, and what every field is afterwards
(`ChannelOrder`, `ChannelEffects`, `ChannelObserved`, `ChannelReplies`, `RequestMeaning`,
`RequestRows`, `RequestReplies`, `ReferralMeaning`, `ReferralReplies`, `PoolGates`, `WelcomeRows`,
`MembershipVisits`, `LaneVerdicts`, `LogTurns`); a lemma proves that both agree on every input. A
`...Run` module makes each transaction, provider write, crash and clock tick one event of a
transition system that keeps the history of writes, and proves an inductive invariant. A
`...Theorems` module states what holds of every run. A class in the original's own shape then
updates its fields in place; each method is proved to compute the transaction, and the workers'
procedures (a wave of claims, a sender's batch, a tick, a poll's step) are proved to be paths of the
run, so the theorems hold of them.

| part | modules | original |
|---|---|---|
| channel delivery: frozen envelopes, leases, splits, fairness, wake-up | `Channel*` | discord_bridge/core.py, discord_bridge/delivery.py |
| personal alerts: at-most-once outbox, inverted keyword index | `Request*` | discord_bridge/request_store.py, discord_bridge/request_delivery.py |
| referral rewards: ledger, submission boundary, replay window | `Referral*` | discord_bridge/referral_store.py, discord_bridge/referral_worker.py |
| rate-limited connection pool | `Pool*` | discord_bridge/api.py |
| join greetings: backward scan of a growing log | `Welcome*` | discord_bridge/welcome.py |
| membership celebrations: capped passes over a staged scan | `Membership*` | discord_bridge/membership.py |
| auxiliary scan lanes | `Lane*` | extension/auxiliary-scans.js |
| rolling logs | `Log*` | discord_bridge/rolling_logs.py |
| shared: options and outcomes, provider replies, ORDER BY with LIMIT, paths of a transition system | `Basics`, `Provider`, `Ranking`, `Paths` | |

What the model assumes: a SQLite transaction is one atomic step; the clock never runs backwards (the
log's may) and is read as a real number; lease tokens are never used twice; hashed ids are the
tuples they hash, so different tuples have different ids; a write's outcome is one of accepted,
rejected, not submitted and unknown, and is arbitrary within what the transport can report.
Rendering, titles and routes appear through what decisions need: the routes an item belongs to, its
word set, and the byte size of a list of cards, which is an arbitrary function. An order that SQL
leaves to an id among equal ranks is left open, so the proofs hold for every tie-break.

Where a promise fails, the model says exactly when, and shows it at the end of a run. `next_due_in`
can oversleep a claimable job behind a leased job that expires before its lease:
`ChannelWakeup.WaitExactly` gives the condition, `ChannelOversleep.LeaseOfExpiringJobOversleeps` the
run. The cooldown that a route inherits from a shared bucket is lost when a response for another
resource renames the bucket: `PoolRun.CooldownDropsOnlyByRename` gives the condition and
`PoolRename.CooldownCanDrop` a run, while waits learned on the pair itself last. A log writer that
dies with a torn tail on disk leaves it there, and the next record goes behind it:
`LogRun.WholeThroughoutIff` and `LogRun.CrashTears`. Log segments archived at one clock reading are
ordered by their random names, and after a clock step by a misleading time, so a newer one may be
pruned first: `LogSuffix.TurnKeepsOrderIff` and `LogSuffix.EqualReadingsLoseNewer`. The user's
restart of a scan lane drops found targets that are still pending:
`LaneTheorems.RenewalKnowsExactly` and `LaneTheorems.RestartForgetsFound`.

`dafny verify dfyconfig.toml` checks the whole project.

## Model

| member | source | states |
|---|---|---|
| `ChannelTheorems.AcceptedEnvelopeIsFinal` | discord_bridge/core.py:509-512 | In every run with any number of senders, takeovers, crashes and POST outcomes: once a POST was accepted or is unknown, any later POST that contains one of its jobs has the same id, members, body and nonce |
| `ChannelTheorems.SplitOnlyAfterRefusals` | discord_bridge/core.py:622-675 | An envelope is split only when every earlier POST of it was definitely refused |
| `ChannelTheorems.EnvelopesPartitionJobs` | discord_bridge/core.py:386-398 | In every reachable state, if a job points at an envelope then exactly the saved members of that envelope point at it, so the member lookup never misses |
| `ChannelTheorems.NewEnvelopesAreNew` | discord_bridge/core.py:465-508 | The id a claim inserts was not in the dispatch table: the primary key never collides, also after splits |
| `ChannelTheorems.OneEnvelopePerRoute` | discord_bridge/core.py:346-347 | Under a nondecreasing clock all live leases on a route belong to one envelope and one token |
| `ChannelTheorems.SupersededChangesNothing` | discord_bridge/core.py:539-620 | Finish, retry, split and validate called with a superseded token change no job row and report failure |
| `ChannelTheorems.OwnerIsLatest` | discord_bridge/core.py:539-550 | Whoever passes the ownership check holds the latest token of that envelope |
| `ChannelTheorems.SentIsFinal` | discord_bridge/core.py:576-597 | Sent is absorbing: the whole row is the same in every later state |
| `ChannelTheorems.SeededForever` | discord_bridge/core.py:169-179 | Once an item is seeded, none of its jobs is pending or leased in any later state |
| `ChannelTheorems.ClaimProgress` | discord_bridge/core.py:381-494 | A claim never refuses more envelopes than there are live jobs |
| `ChannelTheorems.RunKeeps` | discord_bridge/core.py:132-715 | Every state of every run satisfies the system invariant: tables, tokens, flights and posts |
| `ChannelTheorems.RunPreserves` | discord_bridge/core.py:132-715 | Between any two states of a run saved envelopes keep route, members, body and doubt, no job vanishes, and sent rows and seeding stay |
| `ChannelTheorems.RefusalsSpare` | discord_bridge/core.py:381-494 | Refused passes leave every other deliverable envelope claimable and touch no turn |
| `ChannelRun.StepKeeps` | discord_bridge/core.py:132-696 | Each transaction, POST, drop or crash keeps the system invariant and preserves what is settled |
| `ChannelRun.GivesBackOnlyRefusals` | discord_bridge/delivery.py:164-222 | Only replies that cannot have been accepted lead to a split or to an undoubted retry |
| `ChannelRun.SubmitStep` | discord_bridge/delivery.py:151 | A POST keeps the invariant: its batch is the saved envelope, and a possibly accepted one is safe from repacking |
| `ChannelRun.ClaimStep` | discord_bridge/core.py:513-536 | Handing out a claimed batch under a fresh token keeps the invariant |
| `ChannelInvariant.FinishKeeps` | discord_bridge/core.py:576-597 | Finishing keeps shapes, frozen envelopes and the partition of jobs by envelope |
| `ChannelInvariant.RetryKeeps` | discord_bridge/core.py:599-620 | Retrying keeps the store invariant |
| `ChannelInvariant.SplitKeeps` | discord_bridge/core.py:622-675 | Splitting keeps the store invariant, under which a split bundle has left its route a limit below its own size |
| `ChannelInvariant.ValidateKeeps` | discord_bridge/core.py:552-574 | Validation, with its cancellations, keeps the store invariant |
| `ChannelInvariant.ExpireKeeps` | discord_bridge/core.py:333-337 | Expiring overdue jobs keeps the store invariant |
| `ChannelInvariant.DeferKeeps` | discord_bridge/core.py:682-696 | Moving a gate keeps the store invariant |
| `ChannelIntake.RecordKeeps` | discord_bridge/core.py:149-220 | Recording any batch of items keeps the store invariant and preserves settled rows |
| `ChannelIntake.AddJobKeeps` | discord_bridge/core.py:192-214 | Inserting or rearming one job keeps the store invariant |
| `ChannelFill.EnvelopeFill` | discord_bridge/core.py:402-464 | A fresh envelope is one route and one side of the 60-second expiry cut, distinct unattempted due jobs, within size, Free, learned and byte limits, and keeps first and last card of its fill |
| `ChannelFill.PriorityFillHoldsOldest` | discord_bridge/core.py:411-456 | A priority fill contains an oldest eligible job of its cohort whenever there is one |
| `ChannelFill.ShrinkStops` | discord_bridge/core.py:457-464 | Shrinking ends with the largest kept prefix-and-last-card that fits the byte ceiling |
| `ChannelFill.FillIsOneCohort` | discord_bridge/core.py:419-448 | Every row of a fill is on the same route and the same side of the expiry cut, without repetition |
| `ChannelFill.FreshId` | discord_bridge/core.py:465-472 | The id computed for a fresh envelope is not in the table: its members are free, and a split bundle left a limit below its own size |
| `ChannelFill.FreeMemberMeansSplit` | discord_bridge/core.py:663-675 | A saved envelope with a member that points nowhere was split |
| `ChannelClaim.RetireProgress` | discord_bridge/core.py:483-494 | Every unsuccessful pass removes at least one live job: the measure of the claim loop |
| `ChannelClaim.RetireKeeps` | discord_bridge/core.py:483-494 | Cancelling or skipping a refused envelope keeps the store invariant |
| `ChannelClaim.LeaseKeeps` | discord_bridge/core.py:495-529 | Leasing the chosen rows keeps the store invariant, and the batch handed out names the saved envelope |
| `ChannelClaim.LeaseIsAlone` | discord_bridge/core.py:346-347 | A new lease is the only live one on its route |
| `ChannelQuiet.SafeWhileQuiet` | discord_bridge/core.py:539-620 | What one sender may have had accepted stays safe under every transaction that is not that sender's own settlement |
| `ChannelQuiet.RetrySafe` | discord_bridge/core.py:599-620 | A doubted retry leaves the envelope marked uncertain and its members in place |
| `ChannelQuiet.SplitSafe` | discord_bridge/core.py:643-675 | A split never touches an envelope that may have been accepted elsewhere |
| `ChannelFairness.NoOvertaking` | discord_bridge/core.py:362-367 | While a paid route keeps a deliverable envelope and is not excluded, no other paid route is returned by fair claims twice before it is |
| `ChannelFairness.ServedWithinOneRound` | discord_bridge/core.py:522-529 | Such a route is served within as many fair claims as there are paid routes, priority claims interleaved at will |
| `ChannelFairness.FairPick` | discord_bridge/core.py:362-367 | A fair claim takes the paid route whose last claim is oldest |
| `ChannelFairness.TurnsGrow` | discord_bridge/core.py:522-529 | Turn numbers of routes only grow, and the turn of a route that no claim returns stays where it is |
| `ChannelFairness.PassedBy` | discord_bridge/core.py:522-529 | A claimed route stays behind one that no claim has returned since |
| `ChannelWakeup.NoOversleep` | discord_bridge/core.py:698-715 | If a claim at a later time would succeed on the unchanged state and no lease outlives its own job, the reported wait has passed by then |
| `ChannelWakeup.WaitExactly` | discord_bridge/core.py:702-715 | The reported wait has passed at t exactly when some remaining job is ready at t and no lease of its route, expired jobs included, outlasts t |
| `ChannelWakeup.SuccessMeansWork` | discord_bridge/core.py:709-715 | A claim that ever succeeds returns a job that counted as work: reporting no work means no claim can succeed |
| `ChannelOversleep.LeaseOfExpiringJobOversleeps` | discord_bridge/core.py:702-707 | A run from the empty store after which, from 1800 until 1810, a claim on the table succeeds, yet at 1770 the store asks to sleep until 1810: the jobs leased at 1750 expire before their leases |
| `ChannelOrder.ClaimOrder` | discord_bridge/core.py:360-380 | A claim begins exactly with a candidate that no other one precedes: by value, freshness, route of everything and age under priority, by the route that waited longest and age under fairness, Free always last |
| `ChannelOrder.PriorityPick` | discord_bridge/core.py:368-378 | A priority claim begins with a paid row whenever there is one, worth at least as much as any other, a missing value below every known one; at equal value due within the last minute, then the route of everything, then the earlier due |
| `ChannelOrder.FillOrder` | discord_bridge/core.py:413-437 | The picks of a fill are in order, by value under priority on paid routes and else by age; no eligible row left out precedes one of them, and one is left out only of a full envelope |
| `ChannelOrder.CandidateTold` | discord_bridge/core.py:339-360 | A row may be taken exactly when it waits or its lease ran out, its times have come, its route is neither cooled down nor leased, no member of its envelope still waits, and the query asks for it |
| `ChannelOrder.CompanionTold` | discord_bridge/core.py:419-432 | A row may join a fresh envelope exactly when it is due, in time, never attempted, in no envelope, of the same route and on the same side of sixty seconds before expiry |
| `ChannelOrder.SizeTold` | discord_bridge/core.py:402-409 | An envelope may have as many cards as asked, five on the Free route, and no more than the route has learned |
| `ChannelOrder.DeliverableTold` | discord_bridge/core.py:473-482 | An envelope is delivered only if every row is live, in time, still on its route as it would be shown, and of no seeded item |
| `ChannelEffects.OwnedTold` | discord_bridge/core.py:539-550 | A batch is owned exactly when all rows of its envelope, as many as it has, are leased under its token |
| `ChannelEffects.DisownTold` | discord_bridge/core.py:304-315 | A failed ownership check cancels what the token still holds, unless another claim has taken over |
| `ChannelEffects.RetryEffect` | discord_bridge/core.py:599-620 | A retried envelope waits for the delay with every member pending and unleased, the attempt counted or taken back, doubt only added, and no other row touched |
| `ChannelEffects.FinishEffect` | discord_bridge/core.py:576-597 | A finished envelope has every member settled under the message, with the time only when sent, and no other row touched |
| `ChannelEffects.SplitEffect` | discord_bridge/core.py:622-675 | A definite 413 cancels an envelope with an unwanted row, holds a doubted one until it expires, fails a single card, and otherwise frees the members at a limit of at most half the size and five |
| `ChannelEffects.LeaseTold` | discord_bridge/core.py:495-529 | A granted claim leases exactly the chosen rows for a minute under its token, once more attempted |
| `ChannelEffects.EnvelopeTold` | discord_bridge/core.py:495-512 | A new envelope freezes a card of each row under the id of its members; a saved one keeps its body and is doubted exactly when a lease is taken over |
| `ChannelEffects.AttemptsTold` | discord_bridge/core.py:513-520 | The attempts of a batch are the most among its rows, this one included |
| `ChannelObserved.RoutesAre` | discord_bridge/observations.py:130-138 | An item is routed to the Free feed always, and while available to all products, its category, and the price feed of its known positive value |
| `ChannelObserved.RecordTells` | discord_bridge/core.py:151-220 | One observation adds a job for each route of an unseeded item, due at first sight for half an hour, or on the Free route after a day for a week; wakes jobs skipped for leaving their route; and touches no other job. Seeding retires the live ones |
| `ChannelRun.RepliesSettle` | discord_bridge/delivery.py:152-230 | Which reply is settled, split, tried again or given up: from the tenth attempt on only a rate limit is tried again; a rate limit is no attempt; doubt follows a write that may have been delivered |
| `ChannelReplies.ReplySettles` | discord_bridge/delivery.py:151-230 | Each answer leaves its envelope sent, split, waiting for the delay or failed, on every row as told, and touches no other row |
| `ChannelReplies.LateReplyDisowns` | discord_bridge/core.py:539-550 | The answer to a POST whose envelope was lost meanwhile only disowns it |
| `ChannelBackoff.BackoffHolds` | discord_bridge/core.py:604-614 | In every run, behind a retryable reply no member of the envelope can be claimed before the delay has passed, whatever intake, other senders, takeovers and crashes do meanwhile |
| `ChannelBackoff.SenderBackoffHolds` | discord_bridge/delivery.py:206-222 | And so for the delay the sender computes from the reply and the attempts |
| `ChannelBackoff.CooldownHolds` | discord_bridge/core.py:677-696 | In every run a cooldown holds until its time: a global one stops every claim, a route's own keeps its jobs from being claimed |
| `ChannelStore.JobStore.Record` | discord_bridge/core.py:149-244 | Records a batch of 1 to 500 items exactly as the intake transaction says; another size changes nothing |
| `ChannelStore.JobStore.RecordOne` | discord_bridge/core.py:151-220 | One item: observation kept, seeding applied, jobs inserted or rearmed per route |
| `ChannelStore.JobStore.CancelDispatch` | discord_bridge/core.py:304-315 | Cancels the live jobs of an envelope, or only those under one token |
| `ChannelStore.JobStore.OwnedBatch` | discord_bridge/core.py:539-550 | Decides ownership and performs the failed check's cancellation |
| `ChannelStore.JobStore.Validate` | discord_bridge/core.py:552-574 | True only for an owned envelope whose every row is still wanted; otherwise cancelled |
| `ChannelStore.JobStore.Finish` | discord_bridge/core.py:576-597 | Settles an owned envelope in a terminal state; an invalid state or lost ownership is reported |
| `ChannelStore.JobStore.Retry` | discord_bridge/core.py:599-620 | Returns an owned envelope to pending and records doubt: every member waits until now plus the delay |
| `ChannelStore.JobStore.SplitBatch` | discord_bridge/core.py:622-675 | Stale, held, failed or split, each with its exact effect |
| `ChannelStore.JobStore.DeferGate` | discord_bridge/core.py:682-696 | A gate only moves later |
| `ChannelStore.JobStore.ClaimBatch` | discord_bridge/core.py:317-537 | The result is BadSelection, Nothing or a batch; at most 100 refused passes; on success the tables are the lease of a chosen envelope after those passes |
| `ChannelStore.JobStore.ClaimPass` | discord_bridge/core.py:381-536 | One pass: no candidate row, the chosen envelope leased, or an undeliverable one retired |
| `ChannelStore.JobStore.FillRows` | discord_bridge/core.py:413-456 | Picks in fill order within the size, the last replaced by the oldest eligible job when reserved |
| `ChannelStore.JobStore.RowsFor` | discord_bridge/core.py:385-472 | Saved members, or a fill around the first row |
| `ChannelStore.JobStore.PickFill` | discord_bridge/core.py:402-456 | Learned limit, Free limit, fill order and the reserved oldest card |
| `ChannelStore.JobStore.ShrinkRows` | discord_bridge/core.py:457-464 | The shrink loop computes the specified rows |
| `ChannelStore.JobStore.RetirePass` | discord_bridge/core.py:483-494 | What a refused pass does to the tables |
| `ChannelStore.JobStore.GrantLease` | discord_bridge/core.py:495-536 | What a successful pass does to the tables, and the batch it returns |
| `ChannelStore.JobStore.NextDueIn` | discord_bridge/core.py:698-715 | Reports the earliest wake time of the audience's live jobs, or the idle wait |
| `ChannelSender.SettleReply` | discord_bridge/delivery.py:149-235 | One reply's settlement is the run's transition, after the cooldown a 429 names; sent is counted only for a confirmed, still owned POST |
| `ChannelSender.SettleTooLarge` | discord_bridge/delivery.py:165-185 | A definite 413 is split, held, failed or stale, and counted accordingly |
| `ChannelSender.RetryDelay` | discord_bridge/delivery.py:206-209 | A rate limit waits the provider's delay, or five seconds when it names none, and never less than 0.01 |
| `ChannelSender.BackoffDoubles` | discord_bridge/delivery.py:206 | Other failures wait one second, doubled by each attempt, and 256 seconds from the eighth on: the ceiling of 300 is never reached |
| `ChannelWave.ClaimWave` | discord_bridge/delivery.py:288-313 | Forming a wave, each claim at its own reading, is a path of the run: every batch is a claimed flight of its end, no route is in it twice, slot by slot the query is the original's with the fair slot, and a Free batch was claimed when no paid work was due |
| `ChannelWave.FillSlot` | discord_bridge/delivery.py:296-306 | One slot claims paid work, or openly once the check finds no paid work due, outside the routes taken; it is a path of the run |
| `ChannelWave.ClaimNext` | discord_bridge/delivery.py:296-304 | A claim is one event of the run: refusals only, or a new flight under its token |
| `ChannelWorker.SendBatch` | discord_bridge/delivery.py:127-235 | A sender's work on one batch is a path of the run; it posts exactly when not stopping, valid and with a destination, and at most once |
| `ChannelWorker.SettleFlight` | discord_bridge/delivery.py:149-235 | Settling a replied flight is a path of the run |
| `ChannelTheorems.PostsTold` | discord_bridge/delivery.py:151 | The history of POSTs the theorems speak of is complete: a submission appends its batch with the reply, and nothing else writes it |
| `ChannelTheorems.PathKeeps` | discord_bridge/delivery.py:127-235 | Where a sender's work leads the system invariant still holds |
| `ChannelTheorems.StaysReachable` | discord_bridge/delivery.py:127-235 | From a state of a run, the sender's paths end in states of runs, so every theorem above applies to them |
| `RequestRun.AtMostOneSend` | discord_bridge/request_delivery.py:148-212 | For each (member, product), over all interleavings of intake, edits, deletes, revocations, workers and crashes, at most one DM POST has an accepted or unknown outcome |
| `RequestRun.SentStaysProtected` | discord_bridge/request_store.py:640-651 | After such a POST the alert stays in sending, sent or review in every later state |
| `RequestRun.IndexAlwaysRefinesScan` | discord_bridge/request_store.py:241-273 | In every reachable state the indexed candidates filtered by the matcher are exactly what a full scan finds, and no member has more than ten watches |
| `RequestRun.RunKeeps` | discord_bridge/request_store.py:276-787 | Stakes, tokens and posts stay consistent in every state of every run |
| `RequestRun.StepKeeps` | discord_bridge/request_store.py:276-787 | Each event keeps the outbox invariant and only appends posts |
| `RequestRun.SubmitStep` | discord_bridge/request_delivery.py:339-345 | Only a committed alert is posted, and nobody else holds a stake in it |
| `RequestRun.BeginStep` | discord_bridge/request_store.py:732-758 | Committing the send boundary keeps the invariant |
| `RequestRun.ConcludeStep` | discord_bridge/request_delivery.py:148-212 | Whatever the reply, its settlement keeps possibly accepted alerts protected |
| `RequestRun.DoubtStep` | discord_bridge/request_delivery.py:374-397 | An unexpected failure from the submission on puts the alert to review and keeps it protected |
| `RequestRun.PostsTold` | discord_bridge/request_delivery.py:339-345 | The history of POSTs is complete: a submission appends its alert with the reply, and nothing else writes it |
| `RequestRun.MatchItemShields` | discord_bridge/request_store.py:337-361 | Intake never re-arms or changes an alert in sending, sent or review |
| `RequestRun.SweptShields` | discord_bridge/request_store.py:640-651 | Retirement moves an interrupted send to review and nothing else protected |
| `RequestRun.WatchStep` | discord_bridge/request_store.py:184-200 | Every event keeps index and watches in step |
| `RequestIndex.IndexRefinesScan` | discord_bridge/request_store.py:241-273 | Under the trigger invariant the candidate query with the matcher equals the scan |
| `RequestIndex.CandidatesExact` | discord_bridge/request_store.py:241-262 | The candidate query alone, by its index rows and their count, finds exactly the watches saved by then that name the product or only words of its title |
| `RequestIndex.CandidateIsComplete` | discord_bridge/request_store.py:250-261 | The GROUP BY count equals the token count exactly when every token is a word of the title |
| `RequestIndex.InsertKeeps` | discord_bridge/request_store.py:184-189 | The insert trigger keeps the index exact |
| `RequestIndex.EditKeeps` | discord_bridge/request_store.py:190-196 | The update trigger and the new revision keep the index exact and the limit |
| `RequestIndex.RemoveKeeps` | discord_bridge/request_store.py:197-200 | The delete trigger keeps the index exact |
| `RequestIndex.AddAllKeeps` | discord_bridge/request_store.py:477-510 | A batch of distinct new queries keeps the index exact and stays within ten watches |
| `RequestIndex.RevokeKeeps` | discord_bridge/request_store.py:800-821 | Revocation removes all of the member's watches with their index rows |
| `RequestIndex.MatchItemKeeps` | discord_bridge/request_store.py:276-388 | Intake changes no watch and no index row |
| `RequestMeaning.AlertedMembers` | discord_bridge/request_store.py:276-390 | Behind an observation of an available product, a member without a live or possibly sent alert has a fresh one exactly when one of the member's watches, saved by then, has no minimum or one the known value meets, and names the product or only words of its title; a live alert gets the new observation, any other stays as it is |
| `RequestMeaning.WithdrawnEverywhere` | discord_bridge/request_store.py:307-323 | A product that is gone or seeded is withdrawn from every member whose alert still waits |
| `RequestMeaning.LinkedWatches` | discord_bridge/request_store.py:362-390 | A raised or live alert is linked to exactly the member's watches that ask for the product, at their present revision, beside the older links of a live one |
| `RequestMeaning.FreshIsFit` | discord_bridge/request_store.py:324-390 | So a fresh alert to a ready member is fit to be sent |
| `RequestMeaning.RevalidatesExactly` | discord_bridge/request_store.py:654-685 | An alert passes the revalidation exactly when it is leased, neither expired nor past its lease, its member is ready, the product was available when last seen, and a linked watch of the member in its current revision, saved no later than that, still asks for it |
| `RequestMeaning.CommitsExactly` | discord_bridge/request_store.py:732-758 | The send boundary is crossed exactly by the holder of such an alert |
| `RequestMeaning.ClaimsFirstFit` | discord_bridge/request_store.py:705-720 | A claim cancels the unfit rows before the first fit one, leases that for a minute, and touches no other |
| `RequestMeaning.ClaimSucceedsIff` | discord_bridge/request_store.py:687-720 | A claim succeeds exactly when one of the rows it may try is fit to be sent |
| `RequestMeaning.LongestWaiting` | discord_bridge/request_store.py:696-704 | The rows it may try are the twenty due alerts of ready members that waited longest, by time of the next attempt and of creation |
| `RequestRows.AddTold` | discord_bridge/request_store.py:486-510 | A saved batch adds its queries under fresh ids at revision one and changes no other watch, link or alert |
| `RequestRows.AddAllowed` | discord_bridge/request_store.py:436-462 | A batch is refused exactly for a query saved already, unless it may be reused under the saved minimum, or for more than ten watches in the end |
| `RequestRows.AdditionsCount` | discord_bridge/request_store.py:450-460 | The watches a batch adds are the queries that the member does not have |
| `RequestRows.EditTold` | discord_bridge/request_store.py:556-581 | An edited watch is a new revision saved now without its old links, and alerts left without a current link are cancelled |
| `RequestRows.DeleteTold` | discord_bridge/request_store.py:583-609 | A deleted watch goes with its links, and alerts left without a current link are cancelled |
| `RequestRows.RevokeTold` | discord_bridge/request_store.py:800-821 | A revoked member has no watch and no link, must test the DM again, and gets nothing that was not being sent |
| `RequestRows.RetireTold` | discord_bridge/request_store.py:640-651 | An interrupted send is left to review and what waits past its time expires; nothing else moves |
| `RequestRows.SettleTold` | discord_bridge/request_store.py:760-773 | An alert is settled exactly by its holder while leased or sending |
| `RequestRows.RetryTold` | discord_bridge/request_store.py:775-787 | A given back alert waits for the delay, a twentieth of a second at least, and belongs to nobody |
| `RequestRows.BeginTold` | discord_bridge/request_store.py:745-757 | A committed send is counted and remembers where it goes |
| `RequestReplies.ReplySettles` | discord_bridge/request_delivery.py:148-212 | Each answer leaves the alert sent, in review, failed or tried again and the member unchanged, to be tested or blocked, as its status and possible delivery say |
| `RequestReplies.LateReplySettlesNothing` | discord_bridge/request_store.py:760-787 | Without the token, or once settled, an answer changes no alert |
| `RequestStore.RequestStore.ValidateAdd` | discord_bridge/request_store.py:436-462 | The batch check is exactly: no clashing watch and at most ten after the additions |
| `RequestStore.RequestStore.AddMany` | discord_bridge/request_store.py:477-517 | All or nothing: the batch is saved exactly when it validates |
| `RequestStore.RequestStore.EditWatch` | discord_bridge/request_store.py:556-581 | Edits an own watch to a query no other own watch has; otherwise nothing changes |
| `RequestStore.RequestStore.DeleteWatch` | discord_bridge/request_store.py:583-600 | Deletes exactly an own watch and cancels orphaned alerts |
| `RequestStore.RequestStore.CancelOrphanAlerts` | discord_bridge/request_store.py:602-609 | Unsent alerts without a current match are cancelled |
| `RequestStore.RequestStore.RevokeUser` | discord_bridge/request_store.py:800-821 | Watches, index rows and matches go; unsent alerts are cancelled |
| `RequestStore.RequestStore.SetDmStatus` | discord_bridge/request_store.py:611-630 | Sets the status and keeps a known channel |
| `RequestStore.RequestStore.MatchRequests` | discord_bridge/request_store.py:276-388 | One intake batch: nothing without old enough watches; otherwise expiry, then each item for every member with a hit |
| `RequestStore.RequestStore.MatchOne` | discord_bridge/request_store.py:308-386 | One observation: refresh, withdraw or notify each member with a hit exactly once |
| `RequestStore.RequestStore.NotifyMember` | discord_bridge/request_store.py:329-361 | Insert or re-arm the member's alert and link the hitting watches |
| `RequestStore.RequestStore.Claim` | discord_bridge/request_store.py:687-720 | Sweeps, then leases the first of at most twenty due alerts that still validates; the ones before it are cancelled |
| `RequestStore.RequestStore.CommitSend` | discord_bridge/request_store.py:732-758 | The send boundary is committed only for a held alert that still validates |
| `RequestStore.RequestStore.SettleAlert` | discord_bridge/request_store.py:760-773 | Settles only under the holder's token from leased or sending; an invalid state changes nothing |
| `RequestStore.RequestStore.RetryAlert` | discord_bridge/request_store.py:775-787 | Gives the alert back only under the holder's token |
| `RequestStore.MatchAllKeeps` | discord_bridge/request_store.py:276-388 | A whole intake batch keeps watches and index |
| `RequestWorker.RequestWorker.Tick` | discord_bridge/request_delivery.py:214-358 | A tick is a path of the run, leaves no worker behind, and posts at most once |
| `RequestWorker.RequestWorker.Pursue` | discord_bridge/request_delivery.py:249-358 | A product is posted only after the audit and two access checks passed |
| `RequestWorker.RequestWorker.Check` | discord_bridge/request_delivery.py:259-280 | An alert survives a check only with live access and a current match; otherwise the member is revoked, the alert cancelled, or given back, as the access says |
| `RequestWorker.RequestWorker.Send` | discord_bridge/request_delivery.py:330-358 | Posts exactly when the boundary was committed and the message rendered |
| `RequestWorker.RequestWorker.HandleFault` | discord_bridge/request_delivery.py:148-212 | A definite error before submission tries again, or fails the alert and remembers a destination that refuses, by phase and status; no POST is added |
| `RequestWorker.FaultNeverSends` | discord_bridge/request_delivery.py:163-212 | No error before submission makes an alert count as sent or possibly sent, and only a refusing destination changes the member's state |
| `RequestWorker.RequestWorker.LoseAccess` | discord_bridge/request_delivery.py:113-121 | Lost access revokes the watches, or with trials only cancels this alert |
| `RequestWorker.LossSilences` | discord_bridge/request_delivery.py:113-121 | Lost access cancels the alert, and without trials leaves the member no watch |
| `RequestWorker.RequestWorker.ConcludeSend` | discord_bridge/request_delivery.py:346-357 | The reply's settlement is the run's; an unexpected failure behind it means review |
| `RequestWorker.RequestWorker.FindChannel` | discord_bridge/request_delivery.py:281-305 | The known channel, or the opened one recorded as ready; else the fault is handled |
| `RequestWorker.StaysReachable` | discord_bridge/request_delivery.py:214-406 | Ticks from a state of a run end in states of runs |
| `ReferralTheorems.AcceptedNeverPending` | discord_bridge/referral_worker.py:416-425 | Once an apply POST was accepted or unknown, its reward is never pending or void again and keeps that intent, membership and credential and its submission mark |
| `ReferralTheorems.LaterAppliesRepeat` | discord_bridge/referral_worker.py:339-372 | Every later apply POST of that reward repeats intent key, membership and credential, decided less than 86340 seconds after the earlier one |
| `ReferralTheorems.RecoveredCannotSubmit` | discord_bridge/referral_store.py:428-451 | A preparation that lost its lease token can never again cross the submission boundary |
| `ReferralTheorems.RecoveryTakesToken` | discord_bridge/referral_worker.py:291-302 | Recovering an overdue unsubmitted preparation takes its token away and returns it to pending |
| `ReferralTheorems.IntentsNeverRepeat` | discord_bridge/referral_store.py:405-408 | Application generations of a reward strictly increase, so issued intent keys are all different |
| `ReferralTheorems.SelfReferralNeverPaid` | discord_bridge/referral_store.py:192-217 | Whichever came first, credit or binding: a reward whose referee is ever the referrer's own account has no membership at any time, is never applied or used, and no apply POST ever names it |
| `ReferralTheorems.OneOutstanding` | discord_bridge/referral_store.py:112-119 | At most one outstanding reward per referrer and per membership; promos and consumed invoices are not shared |
| `ReferralTheorems.ConsumedIsFinal` | discord_bridge/referral_store.py:500-512 | Used and void are final, with their invoice |
| `ReferralTheorems.HistoryTold` | discord_bridge/referral_worker.py:401-425 | The histories of apply POSTs and issued intents are complete: a first submission and a replay append what they carry, a claim the intent on its row |
| `ReferralTheorems.RunKeeps` | discord_bridge/referral_store.py:158-588 | Every state of every run satisfies the ledger and the protocol invariants |
| `ReferralTheorems.BindingsLast` | discord_bridge/referral_store.py:192-217 | Bindings are final and rewards keep their referrer |
| `ReferralInvariant.BindKeeps` | discord_bridge/referral_store.py:192-217 | A late binding keeps the ledger invariant: flagged self referrals hold no membership |
| `ReferralInvariant.CreditKeeps` | discord_bridge/referral_store.py:281-325 | Crediting keeps the ledger invariant |
| `ReferralInvariant.ClaimKeeps` | discord_bridge/referral_store.py:384-426 | The two partial unique indexes never fire on a claim |
| `ReferralInvariant.MarkAppliedKeeps` | discord_bridge/referral_store.py:453-472 | Recording the applied promo keeps the ledger invariant |
| `ReferralInvariant.ReleaseKeeps` | discord_bridge/referral_store.py:474-498 | Releasing keeps the ledger invariant |
| `ReferralInvariant.FlagKeeps` | discord_bridge/referral_store.py:500-512 | Flagging keeps the ledger invariant |
| `ReferralInvariant.ReconcileKeeps` | discord_bridge/referral_store.py:526-549 | Reconciliation with any evidence, the unused negative one included, keeps the ledger invariant |
| `ReferralInvariant.MarkUsedKeeps` | discord_bridge/referral_store.py:551-573 | Consuming keeps the ledger invariant |
| `ReferralInvariant.VoidKeeps` | discord_bridge/referral_store.py:575-588 | Voiding keeps the ledger invariant |
| `ReferralRun.StepKeeps` | discord_bridge/referral_worker.py:275-426 | Each ledger or worker event keeps the protocol invariant and only appends posts |
| `ReferralRun.SettleStep` | discord_bridge/referral_worker.py:401-415 | A refused first submission returns to pending only when nothing may have been accepted |
| `ReferralRun.RepeatStep` | discord_bridge/referral_worker.py:362-372 | A replayed POST repeats what the row still carries |
| `ReferralRun.Free` | discord_bridge/referral_worker.py:275-372 | No marked worker, replay or possibly accepted POST hangs on a pending or unsubmitted reward |
| `ReferralMeaning.PaysOldest` | discord_bridge/referral_store.py:399-404 | A claim pays exactly a reward of the member's own, pending and not for the member's bound account, such that no other was created earlier, or at the same time with a smaller row |
| `ReferralMeaning.MayClaimTold` | discord_bridge/referral_store.py:372-398 | A member with an account may claim exactly while no reward of the member's and none on that membership is under way |
| `ReferralMeaning.ClaimTold` | discord_bridge/referral_store.py:405-426 | A claimed reward is leased under a new intent with no submission on it |
| `ReferralMeaning.BindTold` | discord_bridge/referral_store.py:192-217 | An account is bound to one profile at most and a profile to one account for good; an unfinished reward for the member's own account becomes an exception |
| `ReferralMeaning.CreditTold` | discord_bridge/referral_store.py:264-325 | A sale is credited exactly to an enrolled member who is not the friend; a friend or payment on record counts as done only for the same pair |
| `ReferralMeaning.MarkTold` | discord_bridge/referral_store.py:428-441 | The submission mark is set once, by the holder while applying |
| `ReferralMeaning.AppliedTold` | discord_bridge/referral_store.py:453-472 | The holder records a promo unless another reward has it or another promo is recorded |
| `ReferralMeaning.ReleaseTold` | discord_bridge/referral_store.py:474-498 | A release by the holder while applying opens the reward again; when asked, only before submission |
| `ReferralMeaning.FlagTold` | discord_bridge/referral_store.py:500-512 | Flagging sets a known reward aside with all it carries; a consumed or void one only gets the reason |
| `ReferralMeaning.ReconcileTold` | discord_bridge/referral_store.py:526-549 | When evidence settles an application, and what each kind leaves |
| `ReferralMeaning.UsedTold` | discord_bridge/referral_store.py:551-573 | A recorded application is consumed once, on its membership, by a payment that consumed nothing else |
| `ReferralMeaning.VoidTold` | discord_bridge/referral_store.py:575-590 | Exactly a pending or void reward is voided |
| `ReferralReplies.AnswerSettles` | discord_bridge/referral_worker.py:401-425 | A confirmed application records its promo, one that may have been carried out stays as it is, and a definite refusal opens the reward again |
| `ReferralReplies.AcceptanceTold` | discord_bridge/whop_client.py:300-338 | Which answers may mean that the application was carried out |
| `ReferralReplies.LateAnswerSettlesNothing` | discord_bridge/referral_store.py:443-451 | An answer after the token was lost changes nothing |
| `ReferralLedger.ReferralStore.BindWhopUser` | discord_bridge/referral_store.py:192-217 | Binds a new or equal account that nobody else has, and flags the exposed self referral |
| `ReferralLedger.ReferralStore.CreditReferral` | discord_bridge/referral_store.py:264-325 | New, already recorded or refused, exactly by attribution |
| `ReferralLedger.ReferralStore.ClaimReward` | discord_bridge/referral_store.py:384-426 | Leases the oldest payable reward exactly when the member may claim and one exists |
| `ReferralLedger.ReferralStore.MarkSubmission` | discord_bridge/referral_store.py:428-451 | Marks once, only for the lease holder while applying |
| `ReferralLedger.ReferralStore.MarkApplied` | discord_bridge/referral_store.py:453-472 | Applies only for the holder and an unattached promo |
| `ReferralLedger.ReferralStore.ReleaseReward` | discord_bridge/referral_store.py:474-498 | Releases only for the holder while applying, and when asked only unsubmitted |
| `ReferralLedger.ReferralStore.FlagException` | discord_bridge/referral_store.py:500-512 | Flags anything but a consumed or void reward |
| `ReferralLedger.ReferralStore.ReconcileApplication` | discord_bridge/referral_store.py:526-549 | The three evidence branches with their refusals |
| `ReferralLedger.ReferralStore.MarkUsed` | discord_bridge/referral_store.py:551-573 | Consumes an applied reward once, on its membership and a free invoice |
| `ReferralLedger.ReferralStore.VoidReward` | discord_bridge/referral_store.py:575-588 | Voids pending rewards only |
| `ReferralService.ReferralService.Apply` | discord_bridge/referral_worker.py:374-426 | A member's turn is a path of the run; at most one POST, never for the member's own referral |
| `ReferralService.ReferralService.Prepare` | discord_bridge/referral_worker.py:387-427 | The POST happens exactly when the promo is ready and the submission mark was durable |
| `ReferralService.ReferralService.Conclude` | discord_bridge/referral_worker.py:401-425 | The answer's settlement is the run's: confirm, hold or release a definite refusal |
| `ReferralService.ReferralService.ReconcileReward` | discord_bridge/referral_worker.py:275-372 | One unresolved reward's reconciliation is a path of the run; it posts only inside the replay window under the same credential |
| `ReferralService.ReferralService.Replay` | discord_bridge/referral_worker.py:339-372 | Replays exactly when eligible and safe, and a confirmed replay confirms the application; once unsafe the reward is flagged, and otherwise nothing changes |
| `ReferralService.ReferralService.Acknowledge` | discord_bridge/referral_worker.py:323-338 | Provider evidence settles the application as a path of the run, with the result of the three rows below |
| `ReferralService.EvidenceConsumes` | discord_bridge/referral_worker.py:329-338 | A purchase with the discount consumes the reward for that payment and membership, and a reversal stays marked |
| `ReferralService.EvidenceConfirms` | discord_bridge/referral_worker.py:317-328 | An attached discount alone confirms the application with that promo; a reversed reward stays as it is |
| `ReferralService.EvidenceIsOwn` | discord_bridge/referral_worker.py:317-338 | Evidence changes no other reward, and no used payment but to the one it names |
| `ReferralService.StaysReachable` | discord_bridge/referral_worker.py:275-426 | Worker procedures from a state of a run end in states of runs |
| `PoolRun.AtMostTwentyFive` | discord_bridge/api.py:239-266 | In every interleaving any one-second half-open window contains at most 25 request starts |
| `PoolRun.SlotsConserved` | discord_bridge/api.py:299-306 | Slots equal idle plus in-flight connections, within 0..4; pending limits are in flight; no two requests in flight share a connection or a major resource; a closed and drained client has no slot left |
| `PoolRun.LearnedWaitHolds` | discord_bridge/api.py:201-218 | A wait learned on (route, major) gates that pair until its deadline through any bucket learning, renaming or aliasing |
| `PoolRun.CooldownDropsOnlyByRename` | discord_bridge/api.py:201-237 | The effective cooldown of a pair drops exactly when another resource's response renames its route to a bucket where less is blocked |
| `PoolRename.CooldownCanDrop` | discord_bridge/api.py:201-237 | A run from the start in which that happens: a wait of ten seconds learned under a shared bucket is gone after another resource's answer |
| `PoolRun.AdmittedIff` | discord_bridge/api.py:239-266 | A request is admitted exactly when every gate is open |
| `PoolRun.WindowHintExact` | discord_bridge/api.py:244-247 | The window's retry hint is exact: closed before it, open at it |
| `PoolRun.RunKeeps` | discord_bridge/api.py:405-563 | Slots, connections, majors and window stay consistent in every run |
| `PoolRun.StepKeeps` | discord_bridge/api.py:405-563 | Each locked section keeps that invariant |
| `PoolRun.StartSpaced` | discord_bridge/api.py:420-422 | An admitted start is a full window after the 25th start before it |
| `PoolRun.SpacedWindows` | discord_bridge/api.py:239-247 | Starts spaced that way never put more than 25 in a window |
| `PoolRun.TrimRemembers` | discord_bridge/api.py:420-421 | Trimming the deque forgets only starts outside the window |
| `PoolRun.StepGates` | discord_bridge/api.py:201-218 | Learned deadlines never move earlier |
| `PoolGates.AdmissionTold` | discord_bridge/api.py:239-266 | A request may start exactly when the client is open, no learned deadline of its route, bucket or everything lies ahead, fewer than 25 started in the last second, no rate limit is being read, nothing in flight concerns its resource, and a connection is idle or one of four can be opened |
| `PoolGates.ScopeTold` | discord_bridge/api.py:258-266 | A refusal concerns every route exactly for a global cooldown, a full window or an unread limit; what has no deadline waits a twentieth of a second |
| `PoolGates.ResourceTold` | discord_bridge/api.py:248-257 | Two requests concern one resource when they name the same one, or neither names any and they share bucket or route |
| `PoolGates.ReserveTold` | discord_bridge/api.py:405-426 | A start takes an idle connection or opens one, and is in flight and in the window |
| `PoolGates.BlockTold` | discord_bridge/api.py:214-219 | A learned deadline raises exactly the gates of the pair, under its bucket and under its route |
| `PoolGates.BucketTold` | discord_bridge/api.py:201-212 | A bucket name moves the pair's deadline along and never shortens the one it joins |
| `PoolGates.HeadersTold` | discord_bridge/api.py:463-476 | Headers learn the bucket; a 429 is pending until its body is read; an exhausted bucket holds the pair until its reset |
| `PoolGates.LimitTold` | discord_bridge/api.py:515-522 | The body of a 429 holds back everything or the pair for as long as it says |
| `PoolGates.FinishTold` | discord_bridge/api.py:554-561 | A finished request leaves flight and its pending limit; its connection is kept if reusable and the client open |
| `PoolGates.CloseTold` | discord_bridge/api.py:299-306 | Closing gives up exactly the idle connections |
| `PoolClient.DiscordClient.Wait` | discord_bridge/api.py:239-266 | The loop over gates computes the specified wait and scope |
| `PoolClient.DiscordClient.RecentStarts` | discord_bridge/api.py:244 | The window's starts, oldest first |
| `PoolClient.DiscordClient.RetryDelay` | discord_bridge/api.py:268-282 | The current hint, or nothing once closed |
| `PoolClient.DiscordClient.CooldownDelay` | discord_bridge/api.py:284-297 | Zero exactly when no learned deadline lies ahead, otherwise up to it |
| `PoolClient.DiscordClient.StartRequest` | discord_bridge/api.py:405-426 | Check and reservation are one step of the run; a refusal changes nothing |
| `PoolClient.DiscordClient.Occupy` | discord_bridge/api.py:420-426 | Takes an idle connection or a new slot |
| `PoolClient.DiscordClient.ResponseHeaders` | discord_bridge/api.py:463-476 | Renaming, pending limit and exhausted bucket as one step |
| `PoolClient.DiscordClient.LimitResponse` | discord_bridge/api.py:515-522 | A 429's body moves the global or the route gates |
| `PoolClient.DiscordClient.FinishRequest` | discord_bridge/api.py:554-561 | Leaves the gates and keeps a reusable connection unless closed |
| `PoolClient.DiscordClient.CloseClient` | discord_bridge/api.py:299-306 | Gives up all idle connections and their slots |
| `WelcomeTheorems.NothingPassedOver` | discord_bridge/welcome.py:191-253 | With ids growing while pages are read, refusals and restarts, the cursor never passes an unconsidered message, the scan leaves no gap behind it, and live greetings never exceed 1000 |
| `WelcomeTheorems.CursorMovesOverConsidered` | discord_bridge/welcome.py:238-252 | When the cursor has moved from c to h every message in between has been considered |
| `WelcomeTheorems.CursorForward` | discord_bridge/welcome.py:238-252 | The cursor only moves forward |
| `WelcomeTheorems.PageIsNew` | discord_bridge/welcome.py:208-210 | No message is ever considered twice |
| `WelcomeTheorems.ConsideredJoin` | discord_bridge/welcome.py:211-237 | A considered join is in the outbox, or its member was greeted within the last day |
| `WelcomeTheorems.AtMostOneGreeting` | discord_bridge/welcome.py:319-369 | At most one greeting POST per join event may have been accepted, over any run with crashes and pruning |
| `WelcomeTheorems.GreetingsADayApart` | discord_bridge/welcome.py:221-237 | Outbox rows of one member are created at least a day apart |
| `WelcomeTheorems.DefersOnlyRefusals` | discord_bridge/welcome.py:346-368 | Only a refused POST is deferred or failed; only an accepted one is settled as sent |
| `WelcomeTheorems.AddJoinsSize` | discord_bridge/welcome.py:200-207 | A page adds at most its incoming messages to the queue |
| `WelcomeTheorems.PostsTold` | discord_bridge/welcome.py:319-345 | The history of POSTs is complete: a submission appends its greeting with the reply, and nothing else writes it |
| `WelcomeTheorems.GreetingsOnRecord` | discord_bridge/welcome.py:221-237 | In every run the history the spacing speaks of holds every greeting ever queued, with its member and time |
| `WelcomeTheorems.RunKeeps` | discord_bridge/welcome.py:191-369 | Scan, queue, outbox and spacing invariants hold in every state of every run |
| `WelcomeRun.HeadCovered` | discord_bridge/welcome.py:195-199 | Whatever the new head reaches was considered before or is on the page |
| `WelcomeRun.IngestScan` | discord_bridge/welcome.py:238-252 | Accepting a page keeps the no-gap invariant, finished or not |
| `WelcomeRun.ArriveKeeps` | discord_bridge/welcome.py:191-199 | Growth of the log keeps the no-gap invariant: new messages fall neither behind the cursor nor into the scanned part |
| `WelcomeRun.FetchScan` | discord_bridge/welcome.py:278-285 | A page fetched below the scan position fits the no-gap invariant |
| `WelcomeRows.JoinTold` | discord_bridge/welcome.py:211-237 | A join is greeted exactly when it is new, by a member not greeted in the last day, and not queued; the member's day starts |
| `WelcomeRows.FitsTold` | discord_bridge/welcome.py:200-207 | A page is accepted exactly when all its new messages would fit the thousand |
| `WelcomeRows.AdvanceTold` | discord_bridge/welcome.py:238-252 | The last page of a scan moves the cursor to the newest message of the scan, any other moves the scan below its oldest one |
| `WelcomeRows.HousekeepTold` | discord_bridge/welcome.py:403-413 | Greetings that waited a day are skipped, finished ones of a week ago and lapsed cooldowns forgotten, and nothing else moves |
| `WelcomeRows.OldestDue` | discord_bridge/welcome.py:287-296 | A tick takes the oldest due greetings |
| `WelcomeRows.ReplyTold` | discord_bridge/welcome.py:340-369 | What each reply leaves of its greeting: sent, deferred by the delay and a second at least, failed, or as it is |
| `WelcomeRows.ClaimRowTold` | discord_bridge/welcome.py:319-330 | Exactly a pending greeting is claimed before its POST |
| `WelcomeWorker.WelcomeWorker.IngestRows` | discord_bridge/welcome.py:191-253 | The counting and inserting loops compute the specified intake; a page that does not fit changes nothing |
| `WelcomeWorker.WelcomeWorker.Collect` | discord_bridge/welcome.py:278-285 | Fetch and intake, with arrivals in between, are a path of the run |
| `WelcomeWorker.WelcomeWorker.SendRow` | discord_bridge/welcome.py:319-369 | One row is a path of the run with at most one POST; only a confirmed success lets the batch go on |
| `WelcomeWorker.WelcomeWorker.SendPending` | discord_bridge/welcome.py:287-369 | The batch of at most five rows is a path of the run |
| `WelcomeWorker.WelcomeWorker.ReconcileRow` | discord_bridge/welcome.py:297-318 | A row left in sending becomes sent with the message found in the history, and otherwise goes to review |
| `WelcomeWorker.WelcomeWorker.Clean` | discord_bridge/welcome.py:403-413 | Skips old pending rows, prunes old finished rows and lapsed cooldowns |
| `WelcomeWorker.StaysReachable` | discord_bridge/welcome.py:379-448 | Tick procedures from a state of a run end in states of runs |
| `MembershipPasses.CappedRefinesUncapped` | discord_bridge/membership.py:99-154 | Over any number of backlog-capped ticks a completed scan yields the members table and the celebrations (member, tier, upgrade) of one uncapped pass at the first tick, with nobody celebrated twice |
| `MembershipPasses.PassesKeep` | discord_bridge/membership.py:99-154 | After any number of passes the celebrated are a subset of those owed at first, the rest are settled, and what is left is still owed |
| `MembershipPasses.OwedIsLeft` | discord_bridge/membership.py:115-124 | What a later tick owes in the same scan is exactly what was left out before |
| `MembershipPasses.VisitAllOutcome` | discord_bridge/membership.py:109-142 | After a pass each member is applied, or owed and untouched; celebrations are exactly those of owed members applied |
| `MembershipScan.SteadyMemberStaged` | discord_bridge/membership.py:67-98 | A member who holds one paid tier throughout the scan is staged with it by the end, whoever else comes and goes |
| `MembershipScan.StagedWasListed` | discord_bridge/membership.py:80-91 | Nobody is staged with a tier that no page listed |
| `MembershipScan.StagingIsQuiet` | discord_bridge/membership.py:144-153 | Partial scans change neither members nor baseline, cooldowns or count |
| `MembershipScan.CelebrationsADayApart` | discord_bridge/membership.py:117-141 | Celebrations of one member and tier are at least a day apart over all scans |
| `MembershipScan.PartiesTold` | discord_bridge/membership.py:109-142 | The history the spacing speaks of grows by exactly the celebrations of a pass, with their member, tier and time |
| `MembershipScan.QuietBaseline` | discord_bridge/membership.py:101-121 | Nothing is celebrated before the first whole scan became the baseline |
| `MembershipVisits.VisitTold` | discord_bridge/membership.py:109-142 | A member is celebrated exactly when a baseline exists, the member is new or a starter who became pro, was not celebrated for that tier in the last day, and the backlog has room: as an upgrade exactly when known before |
| `MembershipVisits.PassFits` | discord_bridge/membership.py:115-124 | A pass adds one to the backlog for each celebration and celebrates nobody beyond its limit |
| `MembershipVisits.PageTold` | discord_bridge/membership.py:80-98 | A full page of a thousand moves the scan on behind its last member, a shorter one ends it |
| `MembershipWorker.MembershipWorker.StagePage` | discord_bridge/membership.py:80-98 | Stages one page and moves or ends the scan |
| `MembershipWorker.MembershipWorker.ScanOrder` | discord_bridge/membership.py:103 | The staged members in id order, each once |
| `MembershipWorker.MembershipWorker.VisitMember` | discord_bridge/membership.py:109-142 | One member's turn computes the specified visit |
| `MembershipWorker.MembershipWorker.ApplyScan` | discord_bridge/membership.py:100-154 | The pass over the scan computes the specified tables, completion and celebrations |
| `LaneTheorems.RoundEnds` | extension/auxiliary-scans.js:293-392 | Within a round failures and advances are bounded by the measure at its start: remaining targets, open attempts and discovery room |
| `LaneTheorems.StepMeasure` | extension/auxiliary-scans.js:293-392 | Every verdict lowers the measure strictly and nothing else in a round raises it |
| `LaneTheorems.DiscoverMeasure` | extension/auxiliary-scans.js:449-482 | Discovery spends room on exactly the attempts it adds |
| `LaneTheorems.SpentMeansOver` | extension/auxiliary-scans.js:331-341 | A spent measure means no target is left to scan |
| `LaneTheorems.WholeIsHonest` | extension/auxiliary-scans.js:334-336 | Status complete implies every target is complete or a duplicate whose representative is complete, and that no candidate was dropped |
| `LaneTheorems.OverIsJudged` | extension/auxiliary-scans.js:331-337 | A finished round hides no pending target, and an unresolved one makes it partial |
| `LaneTheorems.UnresolvedSurvives` | extension/auxiliary-scans.js:187-203 | Whenever a round begins under the same configuration, when due or by the user's restart, an unresolved target is in it with its attempts cleared, and so is the started target a restart breaks off |
| `LaneTheorems.RenewalKnowsExactly` | extension/auxiliary-scans.js:846-867 | Of the targets so far such a round knows exactly the unresolved ones, the one broken off, and those the configuration starts from; a restart forgets found targets that are still pending |
| `LaneTheorems.RestartForgetsFound` | extension/auxiliary-scans.js:856-863 | A run in which a restart forgets one: of two found targets the started one stays and the pending one is unknown afterwards |
| `LaneTheorems.NextRoundComes` | extension/auxiliary-scans.js:31-38 | With refresh off a finished round may be followed by another unless every target is complete or the duplicate of a complete one; dropped candidates alone do not bring it back |
| `LaneTheorems.NewRoundForgetsOnlyCovered` | extension/auxiliary-scans.js:655-664 | A scheduled round under the same configuration forgets only complete targets and duplicates |
| `LaneTheorems.OnlyRoundsForget` | extension/auxiliary-scans.js:118-145 | Besides a new round, a restart and a configuration that does not extend the old one nothing removes or moves a target |
| `LaneTheorems.AppendKeepsWork` | extension/auxiliary-scans.js:118-145 | Appended keywords join the round; targets, cursor and generation so far stay as they are |
| `LaneTheorems.OneVerdictPerLease` | extension/auxiliary-scans.js:224-248 | A message leased under a generation that has had its verdict is refused for good |
| `LaneTheorems.VerdictEndsLease` | extension/auxiliary-scans.js:326-328 | Generations never fall and every verdict raises them |
| `LaneTheorems.RunOk` | extension/auxiliary-scans.js:187-523 | Keys and bindings are unique, duplicates are represented, attempts are bounded, in every history |
| `LaneRun.AdvanceOk` | extension/auxiliary-scans.js:293-341 | Advancing keeps the lane invariant and sets an honest status |
| `LaneRun.FailOk` | extension/auxiliary-scans.js:348-392 | Failing keeps the lane invariant |
| `LaneRun.SelectOk` | extension/auxiliary-scans.js:483-499 | Binding or marking a duplicate keeps the lane invariant |
| `LaneRun.TakeAllAppends` | extension/auxiliary-scans.js:451-476 | Discovery only appends new keys, within the target limit |
| `LaneRun.CarriedAre` | extension/auxiliary-scans.js:190-192 | Exactly the unresolved targets are carried |
| `LaneRun.FreshLaneOk` | extension/auxiliary-scans.js:187-203 | A new round satisfies the lane invariant |
| `LaneRun.AppendQueriesOk` | extension/auxiliary-scans.js:118-145 | Appending keywords keeps the lane invariant |
| `LaneVerdicts.SweepTold` | extension/auxiliary-scans.js:500-520 | A finished sweep completes its target, unless its end could not be verified: then it stays unresolved and marked so |
| `LaneVerdicts.FailureTold` | extension/auxiliary-scans.js:348-385 | A failed attempt is counted; two are tried again, the third leaves the target for the next round |
| `LaneVerdicts.SelectionTold` | extension/auxiliary-scans.js:483-499 | A selected facet is bound to its URL, or is the duplicate of the target that already is |
| `LaneVerdicts.DiscoveryTold` | extension/auxiliary-scans.js:451-478 | Every novel candidate is appended while there are fewer than two thousand targets and counted as dropped from there on |
| `LaneVerdicts.ThreeTries` | extension/auxiliary-scans.js:348-366 | In every run no target is tried more than three times in a round |
| `LaneVerdicts.InterruptionTold` | extension/auxiliary-scans.js:535-550 | A pause, a lane switched off, an error and a lost tab take the lease away and leave the work as it is |
| `LaneVerdicts.StartTold` | extension/auxiliary-scans.js:554-571 | A target is started or put off, under a new generation behind a pause or a lane switched off |
| `LaneVerdicts.WhenTold` | extension/auxiliary-scans.js:603-671 | When each of the coordinator's events may happen; a finished round with targets comes again when refresh is on or a target is unresolved |
| `LaneVerdicts.HeardTold` | extension/auxiliary-scans.js:449-500 | A message is heard only under the present lease and of the kind its target waits for |
| `LaneVerdicts.RoundTold` | extension/auxiliary-scans.js:187-203 | A new round begins at its first target, one round and one generation later, with no attempt made and nothing dropped |
| `LaneScanner.AuxiliaryLane.StartTarget` | extension/auxiliary-scans.js:554-571 | Starts the current target of an unfinished round, under a new generation after a pause, and marks it attempted |
| `LaneScanner.AuxiliaryLane.RestartRound` | extension/auxiliary-scans.js:846-863 | Breaks off the started target and begins a new round at once, under any configuration |
| `LaneScanner.AuxiliaryLane.GiveAttemptUp` | extension/auxiliary-scans.js:348-385 | The coordinator's own failure of the current target, also bounded by the retries |
| `LaneScanner.AuxiliaryLane.MoveOn` | extension/auxiliary-scans.js:293-341 | Advance in place |
| `LaneScanner.AuxiliaryLane.Failed` | extension/auxiliary-scans.js:348-392 | Fail in place, with the retry limit |
| `LaneScanner.AuxiliaryLane.ReportUnusable` | extension/auxiliary-scans.js:500 | Accepted exactly under the current lease; otherwise nothing changes |
| `LaneScanner.AuxiliaryLane.ReportSweep` | extension/auxiliary-scans.js:501-520 | Accepted exactly under the current lease of a bound target |
| `LaneScanner.AuxiliaryLane.ReportSelected` | extension/auxiliary-scans.js:483-499 | Binds the target or advances it as the twin of the first one bound to the URL |
| `LaneScanner.AuxiliaryLane.ReportDiscovered` | extension/auxiliary-scans.js:449-482 | Accepted exactly in the departments lane under the lease; appends and counts as specified |
| `LaneScanner.AuxiliaryLane.AppendCandidates` | extension/auxiliary-scans.js:451-478 | The loop over candidates computes the specified targets and truncation |
| `LaneScanner.AuxiliaryLane.BeginRound` | extension/auxiliary-scans.js:187-203 | The carrying loop computes the specified new round |
| `LaneScanner.AuxiliaryLane.ApplyConfiguration` | extension/auxiliary-scans.js:616-638 | Extends the running round when the list only grew, else starts over |
| `LogRun.SuccessWithinBudget` | discord_bridge/rolling_logs.py:98-114 | From any directory and under any clock, while deletions succeed, after every successful append archives plus segment are within total_bytes and archives within backups |
| `LogRun.AlwaysWhole` | discord_bridge/rolling_logs.py:149-165 | From any directory, under any short writes and failed truncates, the segment is whole records, or whole records and a tail that the owed rollback cuts, as long as no process died with such a tail on disk |
| `LogRun.WholeThroughoutIff` | discord_bridge/rolling_logs.py:17-21 | And exactly then: a history is whole throughout just when at every death no rollback was owed or the file had the length to be restored |
| `LogSuffix.RetainedIsSuffix` | discord_bridge/rolling_logs.py:72-114 | While deletions succeed and each segment, when archived, ranks last by time and name or is pruned with all others, what is on disk from the oldest archive to the segment is the end of everything written whole, under any clock |
| `LogSuffix.SortingAppend` | discord_bridge/rolling_logs.py:98-105 | The age order goes on with a new archive exactly when its name is new and every archive is older, or as old with a smaller name |
| `LogSuffix.TurnKeepsOrderIff` | discord_bridge/rolling_logs.py:98-114 | A turn and the pruning behind it leave the end of the archives in the order of their making exactly when the new one ranks last or nothing is left |
| `LogSuffix.OutOfOrderGoesFirst` | discord_bridge/rolling_logs.py:105-113 | Otherwise a new archive sorts before an older one, and whenever pruning removes that one it has removed the newer |
| `LogSuffix.AnyDirectory` | discord_bridge/rolling_logs.py:46-55 | Whatever a directory holds is a state from which the suffix theorem applies |
| `LogSuffix.EqualReadingsLoseNewer` | discord_bridge/rolling_logs.py:72-114 | A run in which that happens: three full segments within one clock reading, the second archived under the smaller name; the second record is pruned while the first is kept |
| `LogRun.DeathKeepsWholeIff` | discord_bridge/rolling_logs.py:17-21 | A process that dies leaves whole records exactly when no rollback is owed or the file has the length to be restored |
| `LogRun.TailGoesUnnoticed` | discord_bridge/rolling_logs.py:121-168 | After such a death the next record that fits goes behind the tail: the segment is the records, the tail and the record |
| `LogRun.FailedTruncateOwes` | discord_bridge/rolling_logs.py:149-165 | A write that fails, after any number of short writes, and whose truncate fails too, leaves a proper prefix of the record as such a tail, empty exactly when its first call wrote nothing |
| `LogRun.CrashTears` | discord_bridge/rolling_logs.py:149-165 | A run in which it happens: a short write, a failed truncate, a death and a successful append leave the first bytes of one record in front of another |
| `LogRetention.DoomedIsShortest` | discord_bridge/rolling_logs.py:108-113 | Pruning removes the shortest oldest-first prefix whose removal leaves young enough, few enough and small enough archives |
| `LogRetention.RemovedIsOlder` | discord_bridge/rolling_logs.py:105-113 | Nothing removed is newer than anything kept |
| `LogRetention.AppendWhole` | discord_bridge/rolling_logs.py:116-168 | One append keeps whole records, and writes nothing while an owed rollback cannot be done |
| `LogRetention.WritePrefix` | discord_bridge/rolling_logs.py:149-154 | However short the writes, the file ends in a prefix of the record, all of it exactly on success |
| `LogRetention.PruneBounds` | discord_bridge/rolling_logs.py:98-114 | A prune with successful deletions bounds bytes and number |
| `LogRetention.SizeIsTotal` | discord_bridge/rolling_logs.py:106-107 | The running total is independent of the listing order |
| `LogRun.AppendBounds` | discord_bridge/rolling_logs.py:116-168 | One append keeps the budget invariant and, on success, the budget |
| `LogSuffix.TurnRetains` | discord_bridge/rolling_logs.py:72-92 | Rotation moves the segment's records to the newest archive and loses none |
| `LogSuffix.WriteRetains` | discord_bridge/rolling_logs.py:149-165 | A record joins the retained suffix only when written whole |
| `LogTurns.AppendTold` | discord_bridge/rolling_logs.py:121-148 | The record begins a new segment, the old one archived under its own time, exactly when it does not fit or the segment was last written on another day; otherwise it goes behind |
| `LogTurns.PruningTold` | discord_bridge/rolling_logs.py:98-114 | Archives are pruned behind every turn and otherwise once an hour |
| `LogTurns.RepairTold` | discord_bridge/rolling_logs.py:121-131 | An owed rollback restores the length the file had |
| `LogWriter.RollingLog.AppendRecord` | discord_bridge/rolling_logs.py:116-168 | Repair, rotate, prune and write in place as specified, each failure included |
| `LogWriter.RollingLog.PruneArchives` | discord_bridge/rolling_logs.py:98-114 | The loop with its running total removes exactly the specified prefix |
| `LogWriter.RollingLog.WriteBytes` | discord_bridge/rolling_logs.py:149-154 | The write loop with short writes |
| `LogWriter.RollingLog.WriteRecord` | discord_bridge/rolling_logs.py:146-165 | On error undo, or leave the rollback owed |
| `LogWriter.RollingLog.RotateSegment` | discord_bridge/rolling_logs.py:72-96 | The segment goes only after its copy is complete; a copy whose original stays is withdrawn |
| `LogWriter.RollingLog.PrepareSegment` | discord_bridge/rolling_logs.py:121-141 | The owed rollback first, then rotation and pruning when due |

## Left out

- ReferralTheorems.AcceptedNeverPending: any number of workers may prepare and replay, but a replay may not be decided while a first submission of the same reward is between its mark and its settlement; one sequential polling worker never does that, and ReferralOverlap.GuardIsNeeded is a run in which two put an accepted reward back to pending.
- ReferralTheorems.LaterAppliesRepeat: the window is bounded at the moment the worker checks it; the time between that check and the provider's receipt is not bounded by the original either.
- ReferralRun.StepKeeps: the negative reconciliation outcome, which the worker never calls, is proved only to keep the ledger invariant.
- PoolRun.AtMostTwentyFive: time is a real number; rounding of floating-point clocks is not modelled.
- WelcomeTheorems.NothingPassedOver: speaks of messages above the activation id, as the original does; a page is given in id order, which the original sorts into.
- MembershipPasses.CappedRefinesUncapped: cooldown times of celebrations made in later passes are those passes' times, so only members and celebrations are compared.
- LogSuffix.RetainedIsSuffix: that deletions succeed also excludes a copy that could not be withdrawn after its original stayed, whose records are on disk twice.
- ChannelWave.ClaimWave: the claims of one wave follow one another, while the original already sends the first batches in other threads; those interleavings are runs, not steps of this method.
- ChannelTheorems.SupersededChangesNothing: the dispatch row's state label may still be rewritten by a stale call; no decision reads it.
- Channel delivery: the single-job compatibility calls, schema migration, retired routes, legacy nonces, has_due, counts and metrics, receipts and queued counts of recording, the thread pool, the audit before each wave, and delays that are not finite.
- Personal alerts: query parsing and normalization, activity counters, nonces and reasons of alerts, migration of the keyword index, paging of owners, statistics; attempt numbers in the retry backoff are a parameter.
- Referral rewards: friend promos, share and reward codes, validation of identifiers, lease lengths other than the worker's, promo creation beyond its success or failure, membership selection and the evidence predicates over payments; lists fetched once per poll are read per reward.
- Connection pool: sockets, deadlines, timers, TLS, bodies and their size limit, parsing of headers, the offline opener, and how a path yields its route and major resource.
- Join greetings: readiness and privacy audit, deferral to paid work beyond the send boundary, message text, next-poll scheduling, health.
- Membership: role lookup, greeting text, the shared outbox (its backlog is a number here), retry of refused member lists.
- Scan lanes: tabs, messages to content scripts, checkpoints and receipts of pages, URL normalization and scope checks (candidates carry their verdict), pacing between targets and next-round times, legacy lane records, diagnostics.
- Rolling logs: process locks and several writers on one path (one is modelled; each append runs under the lock), compression itself (the size of an archive is arbitrary), listing errors, the logging handler.
- The Gateway service, slash commands, trials, provisioning, monitoring, browser recovery and setup scripts: they observe, configure or glue, and would only add easy members.
