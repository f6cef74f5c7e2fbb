# Relay broker: a verified model

This project models the message broker of the agent relay, and the parts of its clients and setup that
its guarantees rest on, and proves what they promise. `dafny verify dfyconfig.toml` checks all of it.

**The store** (`Messages`, `Statements`, `Pulling`, `Store`). One table of messages, keyed by id. Every prepared
SQL statement is a function on rows; `Store.MessageStore` is a class whose methods run those statements in the
order of the code, one method per operation. Time is a real number of seconds that every call is given. Ids are
the 32 hex digits read as a number, which keeps SQLite's text order. Lease tokens are successive draws from a
source that never repeats itself.

**Runs** (`History`, `Runs`, `Safety`, `Theorems`, `Inbox`, `Fairness`, `Renewal`, `Expiry`, `Idempotency`,
`QueueStats`, `Journey`). The class carries a ghost *ledger*: the table together with the history of every
message ever stored. `History` is the life cycle of one message as an automaton over those histories; `Safety`
shows that every operation of the store only ever writes legal histories, and the theorems are about all runs,
of any length, from the empty table.

**The broker** (`Registry`, `Upkeep`, `Threads`, `Broker`). `Broker.RelayBroker` is the server process: the
long-poll registry, wake-ups, failure notices and message routes, on top of the store. A method is one
synchronous stretch of JavaScript. Clock readings within a stretch are read separately and may differ, by less
than the retention period. Registry steps and the notice loop re-enter the store as they do in the code.

**The receiving side** (`Handler`, `Handling`, `Answering`, `TakenReplyKey`). The inbox worker and request
handler as a state machine over awaits, on top of the ledger, with redelivery, lost requests, lost answers and
crashes at any await. A crash keeps any part of the receipts, which covers both their time to live and failed
writes of the receipts file.

**Signed bytes** (`KeyOrder`, `CanonicalJson`, `CanonicalText`, `CanonicalShortest`, `Signing`). The canonical
printer, against a parser for RFC 8259; the texts that are signed, what a client signs, and what the broker
checks. Strings are sequences of code points. SHA-256, HMAC and the reading of a number are parameters.

**Configuration** (`Strings`, `ConfigFile`, `ConfigReading`, `ConfigRoundTrip`, `ConfigValues`, `WakeEdit`,
`WakeMeaning`, `WakeOutcome`, `WakeAgents`, `WakeText`, `WakeHazard`). The indentation-stack parser, what it
makes of settings written out as nested lines, and the text edit that adds a `wake_command` and must keep what
the text means.

**The workspace lock** (`WorkspaceLock`, `LockSafety`, `LockCalls`). Processes that share one lock file,
interleaved file operation by file operation.

## Where the code is narrower than its documentation

The model follows the code. Where a documented rule fails, the condition under which the code does keep it is
proved, with an input on which it does not.

- `docs/PROTOCOL-V2.md:132` says keys are sorted by UTF-8 bytes. The code sorts by UTF-16 code units. Two keys
  come out in byte order exactly if they do not clash (`KeyOrder.SortsByBytesIff`); `KeyOrder.KeysOutOfByteOrder`
  is a pair that does.
- `docs/PROTOCOL-V2.md:235-237` says a message is not returned again until its lease expires or it is acknowledged.
  A requeue returns a leased message at once (`History.RequeueReturnsEarly`). Without a requeue in between, the
  rule holds (`History.NotReturnedWhileLeased`).
- `docs/PROTOCOL-V2.md:255` says `retry` raises `attempts`. Only a claim does; a retry puts the row back, or
  fails it if the limit is reached (`Store.MessageStore.Ack`). A sweep fails the last permitted delivery while its
  lease is live: a leased row outlives a sweep exactly under the condition of `Renewal.LeaseSurvivesSweepIff`.
- `docs/PROTOCOL-V2.md:278-280` says an expired message can be requeued. `expires_at` stays as it was, and the
  message is queued after the next sweep exactly if it has not expired (`Expiry.RequeuedStaysQueuedIff`).
- `docs/PROTOCOL-V2.md:321-323` promises one notice for each failed or expired request.
  - A request is reported as expired only if the sweep that expires it keeps the row, which it does exactly while
    the row's retention lasts (`Expiry.ExpiredRowIsKeptIff`); with the longest time to live it never does
    (`Expiry.LongestRequestVanishes`).
  - The notice is stored exactly if no message has its origin and key (`Upkeep.NoticeStoredIff`). An agent that
    sends a message with the key of a notice about a request it has received keeps that notice out
    (`Upkeep.PlantedKeyKeepsNoticeOut`). The place of the notice is clear for every request that was never requeued
    and whose target has not done so (`Upkeep.NeverRequeuedIsClear`).
- A duplicate send returns the id of the first message with the root id of the repeated one
  (`Broker.RelayBroker.PostMessage`). The two go together exactly if it is a reply, the sender has named a root, or
  the broker draws the same root again (`Broker.RepeatedSendNamesRootIff`); `Broker.RepeatedSendCanNameOtherRoot` is
  a request repeated word for word whose answer names a root nothing is stored under.
- `lib/message-handlers.js:37-38` takes a reply that the broker has accepted for a reply that is stored. The broker
  takes any idempotency key from the agent it authenticates (`broker/src/v2-routes.js:43`) and drops a message whose
  key is taken (`broker/src/store-v2.js:275-279`). The reply that reaches it leaves an answer in the store exactly if
  its key was free, or what stands under it is an answer already (`Answering.AnswerStoredIff`). An agent that has
  used that key for a message of its own completes the request without any reply being stored
  (`TakenReplyKey.TakenKeyKeepsAnswerOut`). If it sends nothing but replies to the request under that key, every request
  it completes has been answered (`Answering.CompletedIsAnswered`).
- `setup/enable-wake.mjs:68` writes lines back with line feeds. The text that is written splits into the edited
  lines exactly if it has no stray carriage returns (`WakeText.WrittenTextReadsIff`, `Strings.SplitJoinIff`);
  `WakeText.StrayReturnChangesMeaning` is a text that has one, and means something else afterwards because
  `broker/src/config.js:24` cuts no comment off that a carriage return follows. If the line after an agent's block
  is deeper, the edit can move it to the agent (`WakeHazard.DeeperLineChangesMeaning`).
- `lib/lease.js:1-12` promises one writer. It holds while nobody dies and no call outlasts the stale time
  (`LockSafety.ExclusiveWhileAlive`), and each condition is needed. When a holder dies, two processes can break its
  lock one after the other, the second breaking the lock that the first has just taken (`LockSafety.DeathLetsTwoIn`).
  When a process pauses for longer than the stale time between creating the file and writing to it, another takes
  the empty file for abandoned, and both hold the lock (`LockSafety.SlowWriterLetsTwoIn`).

## Model

| member | source | states |
|---|---|---|
| Statements.SweepIsRowwise | broker/src/store-v2.js:134-148 | The four statements of a sweep, each over the whole table, amount to one independent decision per row |
| Statements.SweepDecides | broker/src/store-v2.js:134-148 | That decision, column by column: a row that is over stays for thirty days; an open one expires, fails, goes back to the queue or stays, in this order |
| Statements.DeliveryOrderLists | broker/src/store-v2.js:125-133 | Delivery order lists a set of messages completely, without repeats, strictly by creation time and id |
| Statements.OrderIsUnique | broker/src/store-v2.js:125-133 | No other list of those messages is in that order |
| Statements.ClaimAt | broker/src/store-v2.js:125-133 | Claiming distinct rows leases each once, with consecutive tokens, and leaves every other row alone |
| Pulling.ReadyAfterClaims | broker/src/store-v2.js:125-133 | After n claims exactly the rest of the delivery order is ready |
| Pulling.NextClaim | broker/src/store-v2.js:305-313 | So each run of the claim statement picks the next message of the order that was ready at the start |
| Inbox.PullTakesTheOldest | broker/src/store-v2.js:296-315 | A pull takes min(limit, n) of the n ready messages, in order, and leaves none behind that comes before one it takes |
| Inbox.PullMissesNothing | broker/src/store-v2.js:125-133 | Of all messages queued for the agent, in the conversation asked for if one is, each is handed out, or as many as asked for are and all of them are older; what is handed out is leased under a token of its own with one attempt more, and nothing else changes |
| Inbox.PullChangesOnlyItsClaims | broker/src/store-v2.js:296-315 | Apart from the sweep, a pull changes the rows it returns and no others |
| Inbox.TargetedPullSparesTheRest | broker/src/store-v2.js:300-304 | A pull for one conversation leaves every other conversation as the sweep left it |
| Inbox.TidyEarlier | broker/src/store-v2.js:134-148 | Sweeping a row early changes nothing about whether and how a later sweep leaves it queued |
| Inbox.SweepTwiceIsOnce | broker/src/store-v2.js:261-270 | A second sweep at the same time does nothing |
| Inbox.InboxIsolation | broker/src/store-v2.js:261-315 | No sequence of cleanups and pulls of other inboxes up to a time changes what a pull at that time delivers, nor its order or contents |
| History.ExclusiveDelivery | broker/src/store-v2.js:125-165 | In a legal history, two deliveries are separated by a retry, a requeue, or a sweep past the deadline as last renewed |
| History.OverNeedsRequeue | broker/src/store-v2.js:161-165 | A message that is over is never delivered again without an operator's requeue |
| History.NotReturnedWhileLeased | broker/src/store-v2.js:125-139 | Without a requeue in between, a message is returned again only after a retry, or past the deadline last set |
| History.RequeueReturnsEarly | broker/src/store-v2.js:161-165 | A life in which a requeue has a message delivered again 599 seconds before its lease ends |
| History.CredentialIsCurrent | broker/src/store-v2.js:317-371 | An accepted token belongs to the latest delivery, in time, with nothing but renewals in between |
| History.AttemptsAreDeliveries | broker/src/store-v2.js:125-165 | The attempt counter is the number of deliveries since creation or the last requeue |
| History.DeliveryBudget | broker/src/store-v2.js:125-165 | Deliveries never exceed the limit times one plus the number of requeues |
| Runs.PollIsPull | broker/src/store-v2.js:296-315 | The step of the ledger that a pull makes leaves the table and the token source of the pull itself |
| Safety.SweepIsFaithful | broker/src/store-v2.js:134-148 | Whatever rules of a sweep fire on a row, in their order, are a legal continuation of its life |
| Safety.PollKeeps | broker/src/store-v2.js:296-315 | A pull keeps the ledger invariant: every row is what its legal history has led to, tokens are unique, idempotency keys are unique |
| Safety.StepKeeps | broker/src/store-v2.js:125-173 | So does every operation of the store |
| Safety.RunKeeps | broker/src/store-v2.js:236-434 | So does every run |
| Theorems.LifeCycleAtEveryCommit | broker/src/store-v2.js:125-169 | Queued rows are below the limit without credential, leased rows have token and deadline and 1 to max attempts, terminal rows have no credential; attempts and deliveries as counted in the history |
| Theorems.NoDoubleDelivery | broker/src/store-v2.js:125-165 | Exclusive delivery over every run, messages purged since included |
| Theorems.SingleUseCredential | broker/src/store-v2.js:317-355 | Over a whole run each lease token is accepted by at most one acknowledgement |
| Theorems.AcceptedIsCurrent | broker/src/store-v2.js:317-371 | Over a whole run an accepted token acknowledgement or renewal carries the token of that message's latest delivery and of no other, in time, with nothing but renewals since |
| Theorems.NeverDeliveredLate | broker/src/store-v2.js:465-471 | Over a whole run no message is delivered after it has expired, messages purged since included |
| Theorems.Conservation | broker/src/store-v2.js:272-290 | Messages created are the messages stored plus the messages purged; the store keeps its counter equal to the messages created since it was opened |
| Idempotency.StepOnRow | broker/src/store-v2.js:134-173 | No step changes an envelope, and only a sweep removes a row, one whose retention has run out |
| Idempotency.KeptForThirtyDays | broker/src/store-v2.js:146-148 | No run removes a message within 30 days of its creation |
| Idempotency.IdempotentSend | broker/src/store-v2.js:272-290 | For 30 days, after any run, a send under the same origin and key finds the first message and changes nothing |
| Renewal.LeaseSurvivesSweepIff | broker/src/store-v2.js:134-145 | A leased row outlives a sweep exactly when it is unexpired, within its deadline and below the attempt limit |
| Statements.AckVerdict | broker/src/store-v2.js:317-346 | An acknowledgement is accepted exactly if the message is leased to the agent, the outcome is one of the two, and the token, if one is given, is the current one and in time; and which error each other one gets |
| Journey.DeliveredAsStored | broker/src/store-v2.js:272-315 | Whatever happens after a send, for however long, a pull hands the message out to its target with the envelope that was stored |
| Journey.DeliveredAsSent | broker/src/v2-routes.js:54-119 | So what an accepted send said, body and context and for a request its conversation, is what its target is handed |
| Journey.DeliveredTokenIsAccepted | broker/src/store-v2.js:317-342 | The token that came with a delivery completes the message up to the deadline set last, if nobody who may do so acknowledges, requeues or cancels it before, and sweeps and pulls come in time, below the attempt limit |
| Expiry.RequeuedStaysQueuedIff | broker/src/store-v2.js:161-165 | A requeued message is still queued after a sweep exactly if it has not expired |
| Expiry.ExpiredRowIsKeptIff | broker/src/store-v2.js:134-148 | The sweep that expires a message keeps a row to report on exactly while the message's retention lasts |
| Expiry.LongestRequestVanishes | lib/protocol.js:34 | A request with the longest time to live is in the table after a sweep exactly if it has not expired |
| Expiry.StepOnTime | broker/src/store-v2.js:125-148 | No operation delivers a message that has expired |
| Renewal.RenewingWorkerKeepsClaim | broker/src/store-v2.js:137-145 | While the sweeps and pulls of everybody come no later than the deadline set last, a renewing worker keeps its claim until that deadline, whatever refused acknowledgements and renewals others send, below the attempt limit and before expiry |
| Renewal.LateRenewalsSuffice | adapters/relay-agent.mjs:118-124 | Renewals of 600 seconds that reach the broker any gap up to 600 seconds apart set their deadlines in time |
| Fairness.PassedOverByAFullBatch | broker/src/store-v2.js:296-315 | A pull that leaves a ready message queued returns a full batch, all of it ordered before that message |
| Fairness.PollStep | broker/src/store-v2.js:296-315 | It lowers the attempts left to the messages ahead by at least its limit, and no pull ever raises them |
| Fairness.NoStarvation | broker/src/store-v2.js:125-133 | Over a whole run without requeues, and with new messages later, the pulls that pass a message over ask for no more than the attempts its elders had left at the start |
| Fairness.DeliveredInTime | broker/src/store-v2.js:125-133 | A waiting message that is not cancelled and does not expire is delivered once the unfiltered pulls of its inbox have asked for more messages than its elders had attempts left |
| Store.MessageStore.constructor | broker/src/store-v2.js:83-96 | Opening a database left consistent sweeps it once |
| Store.MessageStore.Cleanup | broker/src/store-v2.js:268-270 | A cleanup is one step of the ledger, and leaves each row as the rowwise sweep does |
| Store.MessageStore.Housekeep | broker/src/store-v2.js:261-266 | The four statements in the order of the code are the rowwise sweep |
| Store.MessageStore.Create | broker/src/store-v2.js:272-290 | A row is added exactly if no message has its origin and key; otherwise the message that has them is named |
| Store.MessageStore.Pull | broker/src/store-v2.js:296-315 | The claim loop returns and leases exactly the messages of the specification: the oldest that wait for the agent, as many as asked for, and no others |
| Store.MessageStore.SweepAndClaim | broker/src/store-v2.js:305-314 | Sweep and claims as one transaction, with the tokens drawn |
| Store.MessageStore.ClaimReady | broker/src/store-v2.js:307-313 | The loop claims the first messages of the delivery order and stops early only when none is left |
| Store.MessageStore.ClaimNext | broker/src/store-v2.js:125-133 | The claim statement leases the first ready row, or finds none |
| Store.MessageStore.Ack | broker/src/store-v2.js:317-355 | Which acknowledgements are accepted, and what they leave: the row completed, queued again, or failed if it has no attempt left |
| Store.MessageStore.RenewLease | broker/src/store-v2.js:358-371 | A lease is renewed exactly for its holder while it is active, to a deadline that may be earlier |
| Store.MessageStore.Requeue | broker/src/store-v2.js:374-376 | Any message that is not queued goes back with a fresh budget, expiry and completion time as before |
| Store.MessageStore.Cancel | broker/src/store-v2.js:378-380 | Any message that is not completed is completed |
| Store.MessageStore.MarkNotified | broker/src/store-v2.js:432-434 | A message is marked at most once |
| QueueStats.Count | broker/src/store-v2.js:437-452 | The counts per agent and status are exact, and the oldest queued message is the oldest |
| QueueStats.CountsPartitionTheTable | broker/src/store-v2.js:437-452 | Together they count every stored message once |
| Registry.SettleKeepsRegistered | broker/src/server.js:87-113 | Resolving a held pull leaves exactly the unresolved ones registered, each resolved once, no empty sets |
| Registry.ParkKeepsRegistered | broker/src/server.js:226-243 | So does parking one while fewer than sixteen are held |
| Registry.ParkKeepsTurns | broker/src/server.js:226-243 | A pull that is parked comes after all others: every agent's pulls stand in the order in which they were parked |
| Registry.OldestStandsFirst | broker/src/server.js:210-213 | So the unresolved pull of an agent that was parked before its others is the first to be answered |
| Registry.ArrivalIsExempt | broker/src/server.js:209-213 | A message sent or requeued is missed by no parked pull but those of its target, arrivals being read off the ledger as it was when each pull was parked |
| Registry.HousekeptKeepsCaughtUp | broker/src/server.js:95-106 | No pull or sweep makes a parked pull miss a message |
| Registry.QuietKeepsCaughtUp | broker/src/v2-routes.js:221-255 | Nor does any acknowledgement, renewal, cancellation or mark |
| Registry.WokenIsCaughtUp | broker/src/server.js:209-213 | Once nobody is parked for an agent, no parked pull has missed a message |
| Upkeep.PollHousekeeps | broker/src/store-v2.js:134-148 | Pulls and sweeps change no mark and no terminal row, and remove a row only after its retention |
| Upkeep.SingleTends | broker/src/store-v2.js:149-170 | Operations on one message change no envelope, never mark a reply, and forget a notice only by a requeue |
| Upkeep.SendSound | broker/src/v2-routes.js:84-119 | A client's send keeps conversations threaded and notices accounted for |
| Upkeep.NoticeStoredIff | broker/src/server.js:60-74 | The notice about a failed request is stored exactly if no message has its origin and key |
| Upkeep.NeverRequeuedIsClear | broker/src/server.js:46-76 | That is so for every unreported request that was never requeued, unless its own target has planted such a message |
| Upkeep.PlantedKeyKeepsNoticeOut | broker/src/server.js:60-74 | A store in which a planted message keeps a request's sender from being told |
| Upkeep.NoticeRound | broker/src/server.js:46-76 | Marking a failed request and sending its notice makes the report, stores nothing more, and keeps everything else accounted for |
| Upkeep.RoundStep | broker/src/server.js:49-76 | The pulls and sweeps re-entered by one notice disturb neither the requests still to come nor those dealt with |
| Upkeep.SentIsOne | broker/src/server.js:60-74 | A stored notice is the only one about its request |
| Upkeep.NoticesCauseNoNotices | broker/src/server.js:46-76 | No stored reply, and so no notice, is ever reported as undelivered |
| Threads.ThreadsNeverCycle | broker/src/v2-routes.js:84-103 | Following replies to their parents never comes back |
| Threads.ThreadIsOneConversation | broker/src/v2-routes.js:84-119 | Every message of a thread has the root, session, mode and topic of the first, between the same two agents in turn |
| Broker.RelayBroker.constructor | broker/src/server.js:40-122 | A server process starts with nobody parked on a store that earlier processes left sound |
| Broker.RelayBroker.DropWaiter | broker/src/server.js:87-93 | The pull leaves the registry, with its agent's set if that is empty, and its deadline is disarmed |
| Broker.RelayBroker.SettleWaiter | broker/src/server.js:95-106 | An unresolved pull is resolved with what it claims at this moment; a resolved one is left alone |
| Broker.RelayBroker.SettleWaiterEmpty | broker/src/server.js:108-113 | An unresolved pull is resolved with nothing |
| Broker.RelayBroker.WaitFor | broker/src/server.js:226-243 | A pull is parked exactly if fewer than sixteen are, with a number above those of all pulls parked before, and the registry invariant stays |
| Broker.RelayBroker.SettleAll | broker/src/server.js:210-213 | All pulls held for the agent are answered in the order in which they were parked, each with what it can claim of what the one before has left |
| Broker.LongestHeldPullGetsIt | broker/src/server.js:197-213 | When an agent is woken, its pull that was parked before its others gets the oldest messages that wait for it, before any other pull has taken one |
| Broker.RelayBroker.WakeAgent | broker/src/server.js:209-218 | Afterwards no pull is parked for the agent; its worker is started exactly if none was, it has a command that can be started, nobody has pulled for ninety seconds, and no wake is under way |
| Broker.RelayBroker.SpawnWorker | broker/src/server.js:131-192 | A worker is started exactly if the agent has a command, it can be started, and no wake is in flight; then one is |
| Broker.RelayBroker.NotifyFailedSender | broker/src/server.js:49-76 | One request is marked, and its sender told exactly if the notice's place is clear; or the request has been purged in between |
| Broker.RelayBroker.NotifyFailedSenders | broker/src/server.js:46-77 | Every request that was failed or expired and unmarked at the start and is still stored is marked, and no other row; it has exactly one notice if the notice's place was clear, as it is for a request never requeued whose target has planted nothing, and no new one if a message still stands there |
| Broker.NoticeIs | broker/src/server.js:50-74 | The notice is a reply to the request that mirrors it, and lives a week, or as long as messages are configured to live if that is longer |
| Broker.RelayBroker.PostMessage | broker/src/v2-routes.js:54-148 | Exactly the acceptable sends are accepted; a new one is stored column by column as it was sent, a reply with the conversation of its parent, and wakes its target, after which no pull is parked for it; the answer says whether the target has pulled within 90 seconds, as it has if a pull was held for it, and exactly when this send has started its worker |
| Broker.SendStatusIff | broker/src/v2-routes.js:54-103 | A send is accepted exactly if its fields are complete, its origin is the agent, and it is a request the agent is granted or a reply to a stored message from its target to it; it is not found exactly if that message is not stored |
| Broker.RepeatedSendNamesRootIff | broker/src/v2-routes.js:82-146 | A repeated send is answered with the root of the stored message exactly if it is a reply, names a root, or draws the same root |
| Broker.RepeatedSendCanNameOtherRoot | broker/src/v2-routes.js:82-146 | A request that is sent again word for word and told a root nothing is stored under |
| Broker.AcceptedSend | broker/src/v2-routes.js:66-119 | The message of an accepted send has body, context, key, parent and addresses as sent, the lifetime asked for between a minute and thirty days, a request its session, mode, topic and root as sent, a reply those of a stored parent of its own and never write privileges; write mode has an explicit grant |
| Broker.RouteSendSound | broker/src/v2-routes.js:74-119 | What passes the checks of the route keeps the store sound |
| Broker.RelayBroker.PullMessages | broker/src/v2-routes.js:190-197 | Notices first, then the oldest messages that wait, at most eight; a pull is parked only when no message for the agent, in the conversation asked for, is queued |
| Broker.EmptyMeansNothingReady | broker/src/v2-routes.js:194-197 | After a claim that came back empty no message of the agent, in the conversation asked for, is queued |
| Broker.ClaimIsOldest | broker/src/server.js:95-106 | Every claim, of a route, a wake-up or a deadline, takes the oldest messages that wait for it and leases them out |
| Broker.RelayBroker.AckMessage | broker/src/v2-routes.js:221-230 | Which acknowledgements are accepted, and what the row is afterwards; after a retry every request failed by then is reported, with one notice wherever its place was clear |
| Broker.RelayBroker.RenewLease | broker/src/v2-routes.js:249-255 | A lease is renewed exactly for its holder in time, for the whole seconds asked for between fifteen and an hour, and nothing is woken |
| Broker.RelayBroker.RequeueMessage | broker/src/v2-routes.js:347-364 | Who may requeue what; afterwards no pull is parked for the target |
| Broker.RelayBroker.CancelMessage | broker/src/v2-routes.js:374-390 | Who may cancel what, and that nothing else changes |
| Broker.RelayBroker.DeadlinePasses | broker/src/server.js:237 | A held pull ends with a last claim |
| Broker.RelayBroker.ConnectionCloses | broker/src/server.js:241 | A held pull whose client is gone claims nothing |
| Broker.RelayBroker.SweepTick | broker/src/index.js:57-61 | The periodic sweep reports every request that has failed by then or whose time is up, if it is still stored, with one notice wherever its place was clear |
| Broker.RelayBroker.WorkerExits | broker/src/server.js:180-192 | The in-flight mark goes, and nothing else |
| Broker.RelayBroker.ReleaseWaiters | broker/src/server.js:319-324 | Every held pull is resolved with nothing, once, and none is left |
| Handler.ActKeeps | lib/message-handlers.js:16-46 | Every step of worker, network and crash keeps one tick, one message in flight, and completion only after the store has held a message of this agent under the key of the reply |
| Handler.RunKeepsHandler | lib/inbox-worker.js:26-68 | So does every run |
| Handler.ExactlyOneAnswer | lib/message-handlers.js:16-46 | In every run at most one message of this agent is stored under the reply key of a request, the early acknowledgement is never reached, and a request is acknowledged as completed only after some message has stood under that key |
| Answering.AnswerStoredIff | broker/src/store-v2.js:272-290 | A reply that reaches the broker leaves a reply to the request, mirroring it, in the store exactly if its key was free or such a reply stands there already; if the key is taken nothing is stored |
| Answering.ActKeepsGenuine | lib/message-handlers.js:16-46 | A step in which the agent plants nothing under the key of a reply keeps what stands there, or has stood there, an answer |
| Answering.CompletedIsAnswered | lib/message-handlers.js:16-46 | In every run in which the agent sends nothing but replies to a request under its reply key, the request is completed only after a reply to it, mirroring it, was stored together with it |
| TakenReplyKey.TakenKeyKeepsAnswerOut | lib/message-handlers.js:35-38 | A run in which every step of the handling succeeds and the request is completed, but no reply to it is ever stored |
| Handling.ActKeepsRecorded | lib/message-handlers.js:16-46 | No step runs a turn for a request that has a receipt, or answers one that has none |
| Handling.OneTurnPerReceipt | lib/message-handlers.js:16-46 | So in every run a request is not worked on again while its receipt is kept |
| Handling.TickStarts | lib/inbox-worker.js:26-31 | A tick that finds no other one under way starts with a pull |
| Handling.BatchIsHandedOut | lib/inbox-worker.js:31-38 | A batch is what the pull hands out, message by message |
| Handling.BatchIsTakenUp | lib/inbox-worker.js:26-49 | A batch that has arrived is worked off from its first message on, unless the worker stops |
| Handling.HandlingGoesOn | lib/inbox-worker.js:38-47 | An await leads to the next one of the same message, or, if it ends the message, to the next message of the batch; none is left out |
| Handling.RequestSucceeds | lib/message-handlers.js:33-39 | When turn, reply and acknowledgement go well, the request is completed in the store, its receipt holds the text, and an answer with that text is stored if the key of the reply was free |
| Handling.ReplaySucceeds | lib/message-handlers.js:20-27 | A request that has a receipt is completed without another turn, and the text of the receipt is its answer if the key of the reply was free |
| Handling.CrashKeepsReceipts | lib/message-handlers.js:13-21 | A crash ends whatever was under way, and the receipts it has kept say what they said |
| Handling.FailedTurnGoesBack | lib/message-handlers.js:40-45 | When the turn fails, the request goes back to the queue, or to the failed ones if it was the last attempt |
| KeyOrder.EncodeIsInjective | lib/protocol.js:99 | Different keys have different UTF-16 code units |
| KeyOrder.KeyLessIsTotal | lib/protocol.js:99 | The sort order of keys is strict and total |
| KeyOrder.BytesAreCodePoints | docs/PROTOCOL-V2.md:132 | The order of UTF-8 bytes is the order of code points |
| KeyOrder.SortsByBytesIff | lib/protocol.js:99 | Two keys come out in the order of their UTF-8 bytes exactly when their first difference is not between U+E000 to U+FFFF and a supplementary character |
| KeyOrder.KeysOutOfByteOrder | lib/protocol.js:99 | Two keys that come out against the order of their UTF-8 bytes |
| CanonicalJson.QuoteString | lib/protocol.js:42-57 | The loop over code points produces the quoted form that the parser reads back |
| CanonicalText.CharRoundTrip | lib/protocol.js:44-55 | Every printed character reads back as itself and is never taken for the end of the string |
| CanonicalText.NumberRoundTrip | lib/protocol.js:67-68 | Every safe integer reads back as itself, whatever follows it |
| CanonicalText.ValueRoundTrip | lib/protocol.js:92-103 | Every printed value reads back, in whatever text it is embedded |
| CanonicalText.RoundTrip | lib/protocol.js:92-108 | Parsing the printed text by RFC 8259 gives the value with its members in printing order, which denotes the same |
| CanonicalText.SortSorts | lib/protocol.js:99 | Sorting distinct keys puts each strictly before the next |
| CanonicalText.SortedIsUnique | lib/protocol.js:99 | There is only one such order, so any sorting algorithm gives it |
| CanonicalText.SameTextIff | lib/protocol.js:92-108 | Two values have the same canonical text exactly when they denote the same: insertion order never matters, at any depth, and nothing else is lost |
| CanonicalShortest.CharIsShortest | lib/protocol.js:42-57 | The text printed for a character is the shortest that is read as it, and of the shortest ones that with lower-case hex digits |
| CanonicalShortest.NumberIsShortest | lib/protocol.js:67-68 | No text that is read as a number is shorter than the printed one |
| CanonicalShortest.CanonicalIsShortest | docs/PROTOCOL-V2.md:128-135 | No JSON text that denotes the same is shorter than the canonical text: no spaces, no needless escapes |
| Strings.JoinIsInjective | lib/protocol.js:113-116 | Lines joined by line feeds can be told apart again |
| Strings.SplitJoinIff | setup/enable-wake.mjs:48 | Lines joined by line feeds are split where they were joined exactly if none but the last ends with a carriage return |
| Signing.TextDeterminesFields | lib/protocol.js:111-117 | The signed text determines scheme, agent, key id, timestamp, upper-cased method, path and digest; a v2 text is never a v3 text |
| Signing.TextIs | lib/protocol.js:111-117 | The signed text, field by field |
| Signing.LineBreaksConfuseSchemes | lib/protocol.js:113-116 | With a line break inside a field it can be |
| Signing.BrokerRebuildsSignedText | lib/client-v2.js:33-47 | The broker rebuilds the text the client signed exactly when both count the same body: GET, HEAD, POST, PUT, PATCH, or no body |
| Signing.RingIs | broker/src/v2-auth.js:25-39 | The key that counts is one of the agent's own keys if it has a ring, otherwise its own secret, otherwise the shared one; and when somebody has a credential of its own |
| Signing.AllowedIff | broker/src/v2-auth.js:52-81 | A request is let in exactly if it is signed with such a key that is not out of date, at most five minutes off the clock, by a configured agent or while nobody has a credential of its own |
| Signing.CaseMakesNoDifference | broker/src/v2-auth.js:53 | The case of the letters of an agent's name makes no difference |
| Signing.HonestClientIsAllowed | broker/src/v2-auth.js:52-81 | A client whose key is on its ring is let in exactly while key and clock are good |
| Signing.SignatureIsForThisRequest | broker/src/v2-auth.js:52-81 | A signature made for some fields lets in no request with other fields |
| ConfigFile.LoadConfig | broker/src/config.js:17-44 | The loop with its stack computes the recursive meaning of the lines, errors and their line numbers included |
| ConfigFile.ReachesAfterPut | broker/src/config.js:29-41 | The section an open stack entry stands for is never replaced while it is open |
| ConfigReading.CommentIsSkipped | broker/src/config.js:24-25 | A line that starts with a number sign is no setting, whatever line terminators it contains |
| ConfigReading.BadLineIsRefused | broker/src/config.js:27-32 | The first line that is no pair, or is indented with no section open, is what the text is refused for, with its number |
| ConfigRoundTrip.RenderedReadsBack | broker/src/config.js:17-44 | Settings written out as nested lines, with any deeper indentation inside sections and with blank lines and comments between them, are accepted and read back as they were nested |
| ConfigRoundTrip.ItemsFill | broker/src/config.js:22-42 | Wherever the reader is, such lines fill the innermost open section and no other, and leave the reader in it |
| ConfigValues.FlagReadsBack | broker/src/config.js:48-49 | `true` and `false` are read as what they say |
| ConfigValues.NumberReadsBack | broker/src/config.js:50 | Decimal digits, with or without a minus sign, are read as the number they denote |
| ConfigValues.QuotedReadsBack | broker/src/config.js:51-53 | What is quoted with either quote is read back word for word |
| ConfigValues.WordReadsBack | broker/src/config.js:59 | A word that starts with a letter needs no quotes, unless it is a flag |
| ConfigValues.ListReadsBack | broker/src/config.js:54-58 | An inline list of items, bare or in either quotes, is read back item by item |
| WakeEdit.PlanWakeConfig | setup/enable-wake.mjs:47-69 | Text and plan of the edit, agent by agent |
| WakeEdit.PlanOne | setup/enable-wake.mjs:51-66 | Where one line is inserted, or why none is |
| WakeEdit.LinesAreRead | setup/enable-wake.mjs:57-60 | A line belongs to the block if four spaces and something else are at its front, and sets a wake_command if the key is, after white space |
| WakeEdit.PlanIs | setup/enable-wake.mjs:50-66 | An agent is unknown exactly if no line is its header; otherwise a line is added at the end of the block of the first such line, exactly if no line of that block sets a wake_command |
| ConfigReading.PutsCommute | broker/src/config.js:33-41 | Assignments of which neither replaces what the other assigns can be swapped |
| WakeMeaning.StepStaysAhead | broker/src/config.js:22-42 | A reader that has seen one assignment more stays exactly that one ahead over every line that leaves it alone |
| WakeMeaning.SecondEditChangesNothing | setup/enable-wake.mjs:57-63 | Editing again for the same agents changes nothing, whatever the commands |
| WakeOutcome.EditKeepsMeaning | setup/enable-wake.mjs:47-69 | The edited lines are accepted and mean what they meant, plus the one command word for word, if the new line takes no line out of its section and nothing further down replaces what is added |
| WakeOutcome.ReplacedMeansNothing | setup/enable-wake.mjs:47-69 | If something further down does replace it, the edited lines mean exactly what they meant before |
| WakeOutcome.AddsCommandIff | setup/enable-wake.mjs:47-69 | As long as the new line takes no line out of its section, the edit adds the command exactly if nothing further down replaces it or the settings had that command already |
| WakeAgents.EditKeepsOthersWell | setup/enable-wake.mjs:50-66 | The edit for one agent leaves all that the edit for another one needs, and settles its own agent only |
| WakeAgents.EditAllKeepsMeaning | setup/enable-wake.mjs:47-69 | The edit for any number of agents adds the commands of those that lines are added for and nothing else, if in the text it starts from each meets the conditions of one edit |
| WakeText.WrittenTextReadsIff | setup/enable-wake.mjs:68 | The text written back splits into the edited lines exactly if no line that another follows ends with a carriage return |
| WakeText.EditedTextKeepsMeaning | setup/enable-wake.mjs:47-69 | So the edited text means what the text meant, plus the one command |
| WakeText.AllEditedTextKeepsMeaning | setup/enable-wake.mjs:47-69 | So does the text edited for any number of agents, if the lines written have no stray carriage returns |
| WakeText.SecondRunChangesNothingIff | setup/enable-wake.mjs:47-69 | Running the edit on its own output writes the same text again exactly if that has no stray carriage returns |
| WakeText.StrayReturnChangesMeaning | setup/enable-wake.mjs:68 | A text with a stray carriage return that writing back alone changes the meaning of |
| WakeHazard.DeeperLineChangesMeaning | setup/enable-wake.mjs:57-65 | A family of texts whose line after the block is deeper: the edited text is accepted and does not mean the old settings plus the command |
| WakeHazard.DeeperLineChangesOwner | setup/enable-wake.mjs:57-65 | In general such a line belongs to a section of the agent before the edit, and to the agent itself after it |
| LockSafety.LiveKeeps | lib/lease.js:56-109 | Every file operation of living processes keeps the lock file accounted for: being filled, or named by the one lease |
| LockSafety.ExclusiveWhileAlive | lib/lease.js:56-109 | In every interleaving of living processes whose calls do not outlast the stale time, at most one lease is held, a release removes its own file only, and no lock is broken |
| LockSafety.LoneKeeps | lib/lease.js:56-109 | With atomic calls, deaths included, the lock file is complete between calls |
| LockSafety.ExclusiveWhileAtomic | lib/lease.js:56-109 | With atomic calls at most one living holder exists, even when processes die and pids are used again |
| LockSafety.DeathLetsTwoIn | lib/lease.js:79-82 | A run of interleaved calls after a death, in which no time passes, that ends with two leases held |
| LockSafety.SlowWriterLetsTwoIn | lib/lease.js:70-86 | A run in which nobody dies, but one call outlasts the stale time, that ends with two leases held |
| LockCalls.AcquireTakesIff | lib/lease.js:56-89 | An acquisition that nothing interrupts takes the lock exactly if there is no lock file, its owner is dead, or it has been empty for more than fifteen minutes; otherwise nothing changes |
| LockCalls.ReleaseRemovesIff | lib/lease.js:102-109 | A release that nothing interrupts removes the lock file exactly if it is its own, and ends the lease |
| LockCalls.BeatRefreshesIff | lib/lease.js:92-99 | A heartbeat makes its own lock file young again, and touches no other |

## Left out

- HTTP: parsing, sockets, body limits and answers beyond their status, `/healthz`, and the read-only routes (status, recent, query, admin status): input and output, or single queries that change nothing.
- Request fields: trimming, cutting by code points, and refusals of malformed fields come before the modelled steps; an unusable field is `None`.
- SQLite: WAL, schema migration, and failures of a statement. A statement is its set-based meaning, and a transaction is atomic.
- Clock readings of one synchronous stretch (`Broker.RelayBroker.Later`) are taken to differ by less than the 30 days of retention.
- Worker processes: the command, its environment and its stderr. The 15-minute guard is `WorkerExits`, which may come at any time, also for a later worker.
- The exact wording of a failure notice.
- Of `processMessage` in `adapters/relay-agent.mjs` only the renewals are followed; its reply and acknowledgement go through the same key and the same store as the handler's.
- `Handler.Act`: a receipt holds the reply as it is; the code cuts it at 48,000 UTF-16 units, and the error text of a retry is empty.
- Relay turns: one returns non-empty text or fails; session manager and routing of replies are not part of this model.
- Backoff and log rates of the inbox worker: they choose times, and every theorem holds for all times.
- Numbers in canonical JSON are safe integers; fractions and exponents, which the signed payloads never contain, `undefined`, and the UTF-8 encoding of the text are not modelled.
- Letter case in signed fields is folded for ASCII only. SHA-256 and HMAC are arbitrary functions, with freedom from collision assumed of the two values compared, where it is needed.
- `ConfigFile.LoadConfig`: open sections are addressed by their path and not by reference, so aliasing is not modelled; integers beyond 2^53 are not rounded; the key `__proto__` is a key like any other. Validation of the loaded values is not modelled.
- `WakeOutcome.AddsCommandIff`: assumes that the new line takes no line out of its section; when it does, settings further down can still undo what the moved line changes, and no exact condition is given.
- Other workspaces, and the path of a lock file, are not part of the lock model; neither is a failure of a file operation other than the file's presence or absence.
- The Python client, the browser panel, the MCP server, the command line and the other setup scripts: they add no state of their own.
