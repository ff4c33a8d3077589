# AI-Email: a verified model

The delivery service accepts messages over HTTP, queues them in Postgres and hands them to a
sending engine; it fans lifecycle events out to webhooks and keeps re-proving the domains it
sends for. This project models that core in Dafny and proves what it keeps to.

## How it is modelled

**Queues.** `LeaseQueue` is the protocol both queues share: claim a batch, get one verdict
for each row, write it back by id alone. Its invariant is proved over every interleaving of
any number of holders with crashes, writes that fail, writes that happen and report an error
all the same, and time passing. `MessageQueue` and `WebhookQueue` are the tables and their
statements; `DeliveryProtocol` and `WebhookProtocol` are the workers and dispatchers as state
machines over those statements, one atomic step each, and are proved to refine the lease
queue. `DeliverySafety`, `DeliveryEvents`, `DeliveryHandoffs` and `DeliveryFairness` draw the
consequences, `DeliveryRetry`, `DeliveryNotes` and `WebhookRetry` among them what is claimed
when and what each answer leads to. `Worker`, `Dispatcher` and `DomainChecker` are the programs
themselves, statement by statement on the store classes. How each statement ends, which rows
others have locked and what the engine, the endpoints and the resolver answer is fixed
beforehand by position (`DeliveryWorld` for the worker), so no program can leave a statement
out and call it failed. Each method returns as ghost output the steps it took, and its
`ensures` says that these are the run of the machine that world prescribes, from the old state
to the new one.

**Acceptance.** `Intake` is the enqueue transaction and the quota test with many requests at a
time: uncommitted rows are private, an insert waits for an uncommitted key, a rollback leaves
nothing. Its runs are proved equal to a serial run. `IntakeStore` is the code of one request,
proved to be a run of that machine. `RateWindow` is the limit that is tested first and counted
later; the hourly ceiling and the quota both refine it, and `DeliveryOvershoot` and
`IntakeOvershoot` give the exact bound of each.

**Domains.** `DomainRecheck` is the recheck as a state machine and `DomainChecker` the program.

**Scanners and printers.** `Template`, `Bounce`, `Unsubscribe`, `WebhookSign`, `MailBuild`,
`Address`, `Suppressions` and `JsonString` hold the loops as methods proved against
specification functions, with the theorems beside them or in `TemplateProofs`,
`MailProofs` and `MailFields`. `Base64`, `Decimal`, `Text` and `Utf8` model the library functions they use.

Times are integers of nanoseconds, one clock for the database and its clients. Text is a
sequence of Unicode scalar values where the source ranges over runes and a sequence of bytes
where it counts or cuts bytes. The address parser, Q-encoding, quoted-printable, the multipart
writer, the URL normaliser, case mapping, hashes and MACs are parameters: any function. What
an outside party answers (engine, endpoint, resolver, network, database errors) is any choice.

## Where the code differs from its comments

- internal/store/queue.go:23-27 says a lapsed lock lets a message be retried. The filter at
  internal/store/queue.go:37 never selects 'sending', so a claim whose worker is gone is
  stranded for ever, and so is a webhook delivery (internal/store/webhooks.go:75). The lock
  column never decides anything: it is set exactly while a row is 'sending'.
  internal/worker/worker.go:195-197 makes the same promise. Delivery is therefore not at least
  once: a message gets at most one 'Sent' answer, and none at all if the worker that claimed it
  is gone before the handoff.
- One row whose recipients cannot be decrypted makes ClaimMessages fail after its update is
  committed (internal/store/queue.go:61-63): its whole batch is stranded.
- The ceiling is tested once per batch (internal/worker/worker.go:149-160): the exact bound on
  recorded events is M - 1 + 10N, so no number of workers keeps M. It is no bound on dispatches,
  as internal/store/queue.go:133-135 calls them: a message handed over whose event is lost is
  not counted, and without such losses the bound is again M - 1 + 10N. The quota's exact bound
  is q - 1 + n.
- internal/store/webhooks.go:43-46 speaks of a worker repeating EnqueueDelivery after a crash.
  Nothing repeats it: an attempt's event is lost exactly if a step on its way is
  (DeliveryEvents.LostExactly).
- `expires_at` of an idempotency record is written (internal/store/messages.go:108) and never
  read: a key is taken for good. The in-flight answer cannot be given.
- MarkDomainVerified has no guard on the status: two checkers can lift a suspension. A
  'suspended' domain is otherwise never looked at again (internal/store/webhooks.go:134), and a
  'pending' one is suspended by its first failed proof (internal/worker/webhooks.go:169-175).
- The class of a status may be a run of up to three digits (internal/bounce/classify.go:163),
  wider than section 2 of RFC 3463.
- Render counts tags by occurrence and Tags by name against the same limit
  (internal/template/render.go:113 and internal/template/render.go:180).
- `truncate` cuts bytes (internal/store/queue.go:174-179). A reason cut inside a character is
  not valid text, so a UTF-8 database refuses the mark and the message is stranded; the event
  detail holds replacement characters instead.

## Model

| member | source | states |
|---|---|---|
| LeaseQueue.RunInv | internal/store/queue.go:29-117 | In every run of any number of holders, with crashes, lost claims, failed writes and lapses of time, the invariant on who holds which row is kept |
| LeaseQueue.LeasesDisjoint | internal/store/queue.go:29-44 | No row is leased twice, by two holders or by one |
| LeaseQueue.HistorySafe | internal/worker/worker.go:192-221 | One verdict per attempt, none after a final one; a settled row was accepted exactly if it is done; a ready row has fewer than eight attempts |
| LeaseQueue.ClaimsSpread | internal/worker/worker.go:209-210 | The kth claim comes at least 2^(k-1) - 1 minutes after the first |
| LeaseQueue.FinishedForever | internal/store/queue.go:96-103 | A done or dead row is never written again, though no statement tests the status |
| LeaseQueue.StrandedForever | internal/store/queue.go:35-41 | A leased row that nobody holds stays leased in every continuation |
| LeaseQueue.StrandedStep | internal/store/queue.go:29-67 | After a step a row is stranded if and only if it was before or the step loses it: its holder crashes, its outcome cannot be written, or its claim is committed and lost |
| LeaseQueue.StrandedExactly | internal/store/queue.go:29-67 | After a run a row is stranded if and only if it was at first or one of the steps lost it |
| LeaseQueue.ClaimsBounded | internal/worker/worker.go:204-208 | Attempts count exactly the claims, and a run claims the rows of any list at most eight times each |
| MessageQueue.Store.SelectDue | internal/store/queue.go:36-42 | The selection is of due rows not row-locked, at most the limit, and no due row left out is older than one taken |
| MessageQueue.Store.ClaimMessages | internal/store/queue.go:28-67 | Exactly the selected rows become 'sending' with one more attempt and a lock; nothing is claimed if and only if the statement is refused, and the batch is returned if and only if it reports success and every list of recipients can be decrypted |
| MessageQueue.ClaimMeaning | internal/store/queue.go:30-34 | A claim sets status, attempt and lock of the rows it takes, keeps the rest of them and touches no other row |
| MessageQueue.Store.RecordEvent | internal/store/queue.go:121-131 | Appends one event with the JSON detail, or none exactly if the statement is refused or there is no such message |
| MessageQueue.Store.MarkMessage | internal/store/queue.go:70-117 | The row named by id takes the mark whatever its status, unless the statement is refused or last_error does not take the text; the event statement is made exactly if that went well |
| MessageQueue.Store.SentInLastHour | internal/store/queue.go:136-145 | The count of 'email.sent' events later than an hour ago, or an error exactly if the statement fails |
| DeliveryProtocol.StepSimulates | internal/worker/worker.go:146-221 | Each statement, answer, crash and lapse of time of the delivery workers is one step of the lease queue, or none |
| DeliveryProtocol.RunRefines | internal/worker/worker.go:118-221 | Every run of any number of workers is a run of the lease queue on the same rows |
| DeliveryProtocol.HolderHasRow | internal/store/queue.go:96-103 | The row a worker is about to mark is 'sending' with the attempt it was given |
| DeliverySafety.OneHolder | internal/store/queue.go:29-44 | In every run a message is held at most once, and a held one is 'sending' with its holder's attempt |
| DeliverySafety.AtMostOneHandoff | internal/worker/worker.go:171-221 | In every run a message gets one verdict per claim and none after an acceptance or a refusal, so at most one 'Sent'; 'sent' means the engine accepted; a claimable message has fewer than eight attempts, any at most eight |
| DeliverySafety.RetriesSpread | internal/worker/worker.go:204-210 | In every run the kth claim of a message comes at least 2^(k-1) - 1 minutes after its first |
| DeliverySafety.FinishedForever | internal/store/queue.go:70-117 | From any reachable state 'sent' and 'failed' are never left |
| DeliverySafety.StrandedForever | internal/store/queue.go:23-41 | A 'sending' message no worker holds stays so for ever, is never claimed again and gets no further answer, whatever time passes (the comment promises a retry; the filter never selects 'sending') |
| DeliverySafety.LossStrands | internal/store/queue.go:23-67 | After a step a message is stranded if and only if it was before or its worker crashed, its mark was refused or its batch was lost: it leaves 'sending' only through its holder |
| DeliverySafety.StrandedExactly | internal/store/queue.go:23-67 | After a run a message is stranded if and only if it was at first or one of the steps lost it |
| DeliverySafety.UnwritableStrands | internal/store/queue.go:76-117 | Whatever its worker's next statement does the message is stranded, if and only if last_error does not take the text |
| DeliverySafety.SplitReasonStrands | internal/store/queue.go:174-179 | A message with a reason of valid text is so stranded if and only if the reason takes more than 500 bytes and the cut splits a character |
| DeliverySafety.SplitReason | internal/store/queue.go:174-179 | 499 letters and a character of two bytes are such a reason |
| DeliverySafety.CeilingHolds | internal/worker/worker.go:146-169 | With ceiling M > 0 and N workers every one-hour window of every run holds at most M - 1 + 10N 'email.sent' events |
| DeliveryRetry.DueIsClaimable | internal/store/queue.go:36-40 | In every reachable state the claim's filter takes exactly the ready rows of the lease queue whose time has come: the lock column never decides |
| DeliveryRetry.TakenWhenDue | internal/store/queue.go:36-42 | A claim that is not full takes a 'queued' or 'deferred' message that is not row-locked if and only if it has no time or its time has come |
| DeliveryRetry.Retried | internal/worker/worker.go:204-215 | A message refused for the time being on an attempt before the eighth is taken by the next claim with room for it that does not find it row-locked, if and only if min(2^(attempt-1) minutes, 6 hours) have passed since its mark |
| DeliveryNotes.AnswerTable | internal/worker/worker.go:171-221 | The whole table of answers: what each leaves of the row, which event it records, under which text |
| DeliveryNotes.FinalEventIsLast | internal/worker/worker.go:192-221 | In every run, once 'email.sent' or 'email.failed' of a message is recorded or published its row has that status and attempt for ever and no claim takes it |
| DeliveryOvershoot.CeilingReached | internal/worker/worker.go:146-169 | For every ceiling M and number N of workers some run from the empty queue sends M - 1 + 10N messages in one instant |
| DeliveryOvershoot.CeilingOvershoots | internal/worker/worker.go:147-167 | For every ceiling and number of workers some run passes the ceiling within an hour |
| DeliveryOvershoot.CeilingExactly | internal/worker/worker.go:146-169 | A bound on the sent events of any one hour holds of every run if and only if it is at least M - 1 + 10N |
| DeliveryHandoffs.RunBooks | internal/worker/worker.go:181-202 | In every run the messages handed over in an hour are those recorded, those still to be recorded and those whose event was lost |
| DeliveryHandoffs.HandoffsBounded | internal/store/queue.go:133-145 | In any hour of any run at most M - 1 + 10N messages are handed over besides those whose event was lost |
| DeliveryHandoffs.HandoffsExactly | internal/store/queue.go:133-145 | A bound on the handoffs of any hour whose event is not lost holds of every run if and only if it is at least M - 1 + 10N |
| DeliveryHandoffs.HandoffsUnbounded | internal/store/queue.go:133-145 | No number bounds all handoffs of an hour, whatever the ceiling: with marks that are refused one worker hands over as many as it likes |
| DeliveryEvents.EventIdInjective | internal/worker/worker.go:102-115 | The printed event id determines message, type and attempt, whatever the message id holds |
| DeliveryEvents.EventIdReads | internal/worker/worker.go:102-106 | Read from its end, every event id gives back the attempt, the type and the message's id |
| DeliveryEvents.EventsFollowVerdicts | internal/worker/worker.go:192-221 | In every run an event recorded or published is 'email.sent' if and only if the engine accepted that attempt, 'email.deferred' if and only if it is to be tried later before the eighth, 'email.failed' if and only if it was refused, or to be tried later on the eighth |
| DeliveryEvents.PublishedOnce | internal/worker/worker.go:97-115 | In every run an attempt of a message publishes at most one event of whatever type, and no two publications share an event id |
| DeliveryEvents.LostStep | internal/worker/worker.go:192-215 | After a step an attempt's event is lost if and only if it was before or the step loses it: its worker crashes, its mark, event or publication does not go well, or its batch is lost |
| DeliveryEvents.LostExactly | internal/worker/worker.go:97-115 | In every run an attempt made is published, in a worker's hands or lost, and it is lost if and only if one of the steps lost it |
| DeliveryEvents.PublishedExactly | internal/worker/worker.go:97-115 | An attempt that is out of every worker's hands has published exactly one event if and only if no step lost it |
| DeliveryEvents.SentOnce | internal/store/queue.go:121-145 | In every run a message has at most one 'email.sent' event, and only if the engine accepted it |
| DeliveryFairness.NoStarvation | internal/store/queue.go:36-42 | Over any run a due message with k older ones is passed over by at most 8k/10 claims |
| Backoff.DelayLaw | internal/worker/worker.go:316-329 | The delay is min(2^(n-1) minutes, 6 hours) for every integer attempt n (below 1 taken as 1), and nothing computed on the way overflows |
| Backoff.DelayMonotone | internal/worker/worker.go:316-329 | A later attempt never waits less |
| DeliveryWorld.GoesRuns | internal/worker/worker.go:118-221 | What one worker does in a world that fixes how every statement ends and what the engine answers is a run of the protocol in which it never crashes |
| DeliveryWorld.BarredMeaning | internal/worker/worker.go:229-251 | Each recipient whose statement is not refused is listed, what was listed keeps its row, and a new row is a recipient's, under 'complaint' for a complaint and 'hard_bounce' otherwise |
| Worker.Worker.Publish | internal/worker/worker.go:102-115 | The event is queued for every active endpoint that has none of its id, all with one payload; for none exactly if there is no payload or the statement is refused |
| Worker.Worker.Conclude | internal/worker/worker.go:192-215 | Mark, event and webhooks, each exactly if the one before went well, are a run of the protocol in the worker's world, ending with the message off its hands |
| Worker.Worker.SuppressIfAddressIsBad | internal/worker/worker.go:229-244 | If the response condemns the address, one statement is made for every recipient and the list is what those that are not refused leave; otherwise nothing is done |
| Worker.Worker.Fail | internal/worker/worker.go:305-312 | The message is marked failed with the given reason and announced under it, as a run of the protocol in the worker's world |
| Worker.Worker.Deliver | internal/worker/worker.go:171-221 | The message is handed over once, and what follows, down to the suppression and webhook rows, is the run of the protocol its world prescribes: no step fails but by a refused statement or an engine's answer |
| Worker.Worker.Tick | internal/worker/worker.go:146-169 | Nothing is done if and only if the count fails or is at the ceiling; otherwise one claim is made, an error is returned if and only if its result is lost, and if not every message claimed is handed over, once and in order, and their number returned, no step failing but by its world and none left in the worker's hands |
| WebhookQueue.EnqueueMeaning | internal/store/webhooks.go:47-56 | Afterwards every active endpoint has its row for the event, only such rows are new, each pending, unattempted and due at once with the given payload, and every row that was there is untouched |
| WebhookQueue.EnqueueTwice | internal/store/webhooks.go:43-56 | Repeating the call with any payload changes nothing while no endpoint is added or activated |
| WebhookQueue.Store.EnqueueDelivery | internal/store/webhooks.go:47-56 | Adds the rows of one event, or none exactly if the statement is refused |
| WebhookQueue.Store.ClaimDeliveries | internal/store/webhooks.go:66-99 | Exactly the selected due rows become 'delivering'; each is returned with its own payload and its endpoint's URL and secret, or an error exactly if the statement reports one |
| WebhookQueue.ClaimMeaning | internal/store/webhooks.go:67-71 | A claim sets status, attempt and lock of the rows it takes, keeps the rest of them and touches no other row |
| WebhookQueue.Store.MarkDelivery | internal/store/webhooks.go:101-126 | The row named takes the mark whatever its status, unless the statement is refused or last_error does not take the text |
| WebhookProtocol.RunRefines | internal/worker/webhooks.go:74-114 | Every run of any number of dispatchers is a run of the same lease queue |
| WebhookProtocol.OneHolder | internal/store/webhooks.go:66-82 | In every run a delivery is in one hand at most, and the row its dispatcher will write is the one it claimed |
| WebhookProtocol.AtMostOneDelivery | internal/worker/webhooks.go:85-114 | In every run a delivery has at most eight claims, one verdict each and none after success or drop, spaced by 2^k - 1 minutes |
| WebhookProtocol.SettledForever | internal/store/webhooks.go:75-82 | A delivery that succeeded, failed or lost its dispatcher never changes status again |
| WebhookProtocol.LossStrands | internal/store/webhooks.go:75-82 | After a step a delivery is stranded if and only if it was before or its dispatcher crashed, its outcome was refused or its batch was lost |
| WebhookProtocol.StrandedExactly | internal/store/webhooks.go:75-82 | After a run a delivery is stranded if and only if it was at first or one of the steps lost it |
| WebhookProtocol.PayloadFrozen | migrations/00002_webhooks.sql:13-30 | The payload and message of a delivery never change once queued |
| WebhookRetry.DueIsClaimable | internal/store/webhooks.go:74-80 | In every reachable state the claim's filter takes exactly the ready rows of the lease queue whose time has come |
| WebhookRetry.OutcomeTable | internal/worker/webhooks.go:85-114 | The whole table of outcomes: what each leaves of the row |
| WebhookRetry.Retried | internal/worker/webhooks.go:99-113 | A delivery to be tried again on an attempt before the eighth is taken by the next claim with room for it that does not find it row-locked, if and only if min(2^(attempt-1) minutes, 6 hours) have passed since that was written |
| Dispatcher.Dispatcher.Deliver | internal/worker/webhooks.go:85-114 | One request is made and its outcome written by the decision table, as a run of the protocol in the dispatcher's world |
| Dispatcher.Dispatcher.Tick | internal/worker/webhooks.go:74-83 | Nothing is done if and only if the claim is refused; otherwise an error is returned if and only if its result is lost, and if not every delivery claimed is sent, once and in order, and their number returned |
| RateWindow.EveryWindow | internal/store/queue.go:136-145 | In every run of n processes, a limit tested before and counted after up to b units each admits at most limit - 1 + b n units in any one-hour window |
| RateWindow.StepInv | internal/worker/worker.go:146-169 | The bound, counting what each process may still add, is kept by every step |
| RateWindow.BoundIsReached | internal/store/queue.go:136-145 | For every limit, b and n some run of such processes fills a window to that bound |
| Intake.RunIsSerial | internal/store/messages.go:62-140 | Under every interleaving, rollback and crash the committed tables are those of a serial run of the requests that took effect, and every response given is that run's |
| Intake.StepInv | internal/store/messages.go:65-165 | Every statement keeps the invariant: inserted keys and ids are nobody else's, and what a replay has read still holds |
| Intake.KeyMeaning | internal/store/messages.go:103-140 | After the request that made a key's message, the same request is told of that message and any other is refused; before it, a request makes its message or fails for a taken id |
| Intake.OncePerKey | internal/store/messages.go:62-140 | Of two successes with one key the later is a replay naming the earlier's message, for the same request hash |
| Intake.NeverInFlight | internal/store/messages.go:136-138 | The in-flight error is given in no run |
| Intake.RecordsMeaning | internal/store/messages.go:90-95 | Every committed record links a stored message, that of the request which made it |
| Intake.SerialGrows | internal/store/messages.go:65-101 | No request changes or removes anything stored; a refused one changes nothing |
| Intake.NoDeadlock | internal/store/messages.go:106-124 | A request between two statements goes on if and only if it waits for no row that is uncommitted or locked by a load, and otherwise what it waits for, or what that waits for, goes on |
| Intake.QuotaHolds | internal/httpapi/send.go:66-79 | For a key of quota q > 0 and n requests in progress at most, any one-hour window of creation times holds at most q - 1 + n messages: q when requests are serial |
| IntakeOvershoot.QuotaReached | internal/httpapi/send.go:66-79 | For every quota q and n requests in progress some run creates q - 1 + n messages in one instant |
| IntakeOvershoot.QuotaExactly | internal/httpapi/send.go:66-79 | A bound on a key's messages of any one hour holds of every run if and only if it is at least q - 1 + n; the quota itself if and only if requests come one at a time |
| IntakeStore.Tx.ClaimIdempotency | internal/store/messages.go:105-140 | Reserves a free key, finds the message of the same request, or gives the mismatch error, changing nothing then; fails exactly if one of its statements does |
| IntakeStore.Tx.InsertMessage | internal/store/messages.go:142-165 | Adds the row, or nothing exactly if the statement fails or the id is taken |
| IntakeStore.Store.EnqueueMessage | internal/store/messages.go:65-101 | The answer is the serial request's if every statement goes well and a failure otherwise; the tables are those the serial request leaves if all but the commit go well and the commit is not refused, and unchanged otherwise; its statements are a run of the machine with many requests |
| IntakeStore.Store.SendsInLastHour | internal/store/keys.go:110-117 | The count of the key's messages created later than an hour ago, or an error exactly if the statement fails |
| IntakeStore.Store.HandleSend | internal/httpapi/send.go:66-95 | An error exactly if the count fails, refused exactly if the quota is used up, nothing being stored in either; otherwise the enqueue's answer; a run of the machine |
| DomainRecheck.StatusFromFindings | internal/worker/webhooks.go:143-179 | With one checker, in every run, a domain is pending before any conclusive check, verified while all have passed, suspended for ever after the first that failed; lookup failures and lost writes change nothing |
| DomainRecheck.StatusIsLatest | internal/store/webhooks.go:163-192 | With any number of checkers a status is that of the last conclusive finding written |
| DomainRecheck.CheckAgrees | internal/store/webhooks.go:163-182 | A finding that is written keeps status and findings in agreement if and only if it is not a proof of a domain already suspended; it touches no other domain |
| DomainRecheck.TwoCheckersUndoASuspension | internal/store/webhooks.go:163-182 | With two checkers or more some run lifts a suspension |
| DomainRecheck.AgreesExactly | internal/worker/webhooks.go:143-179 | Status and findings agree in every run of n checkers if and only if n is at most one |
| DomainRecheck.RecheckIsFair | internal/store/webhooks.go:130-154 | With one checker a due domain passed over by k selections had more than 50k others that were active when its wait began, were added since or whose check was lost |
| DomainRecheck.TakenWithin | internal/store/webhooks.go:130-154 | With n active domains, none added and no check lost, one of the first ceil(n/50) selections takes it |
| DomainRecheck.DueIsChecked | internal/worker/webhooks.go:143-179 | From any reachable state, once ceil(n/50) such ticks are over every domain that was due has been checked |
| DomainRecheck.SelectedWhenDue | internal/store/webhooks.go:130-154 | In every run a selection that is not full takes a domain if and only if its last conclusive check did not fail and it was never checked or last more than a day ago |
| DomainRecheck.FirstVerified | internal/store/webhooks.go:163-172 | A domain keeps the time it was first verified in every continuation |
| DomainChecker.GoesRuns | internal/worker/webhooks.go:143-179 | What one checker does in a world that fixes how every statement ends and what every look-up finds is a run of the recheck machine without a crash |
| DomainChecker.Store.DomainsDueForRecheck | internal/store/webhooks.go:130-154 | The batch is of due domains, at most the limit, and none left out was checked earlier than one taken, never-checked ones being first |
| DomainChecker.Store.MarkDomainVerified | internal/store/webhooks.go:163-172 | The named domain becomes verified and checked now, keeping the time it was first verified |
| DomainChecker.Store.SuspendDomain | internal/store/webhooks.go:176-182 | The named domain becomes suspended and checked now |
| DomainChecker.Store.TouchDomainCheck | internal/store/webhooks.go:186-192 | Only the time of the last check changes |
| DomainChecker.Checker.CheckOne | internal/worker/webhooks.go:149-177 | One look-up and the write its outcome calls for, as a run of the recheck machine in the checker's world |
| DomainChecker.Checker.Tick | internal/worker/webhooks.go:143-179 | Nothing is done if and only if the selection fails; otherwise every domain selected is looked up, once and in order, and each outcome written by its own statement |
| JsonString.AppendJsonString | internal/store/queue.go:189-212 | Appends the escaped text between quotes, rune by rune |
| JsonString.DetailRoundTrip | internal/store/queue.go:181-212 | For any bytes, the detail is valid UTF-8 and one JSON object, and reading it gives the reason with other controls turned into spaces |
| JsonString.EventDetailKeeps | internal/store/queue.go:121-131 | A long valid reason keeps the characters that fit in 500 bytes, with one replacement character for each byte of a cut one |
| Utf8.RunesTruncate | internal/store/queue.go:174-179 | What a byte cut leaves: the whole characters before it and a replacement character per stray byte |
| Utf8.TruncateValid | internal/store/queue.go:174-179 | The cut text is valid UTF-8 if and only if the cut falls between two characters |
| Utf8.StorableCut | internal/store/queue.go:174-179 | A text cut at n bytes can be stored if and only if it needed no cut or the cut falls between two characters |
| Utf8.CutInside | internal/store/queue.go:174-179 | For every n a text of n + 1 bytes whose cut at n cannot be stored |
| Template.ValidateName | internal/template/render.go:132-150 | True exactly for names of ASCII letters, digits and underscores, not empty and at most 64 bytes |
| Template.Render | internal/template/render.go:65-126 | The loop returns the literals and values of the scanned template in order, or the first thing wrong with it |
| Template.Tags | internal/template/render.go:154-185 | The loop lists the scanned names once each in order of first use, or the first thing wrong |
| TemplateProofs.PrintScan | internal/template/render.go:84-120 | A template that scans is its segments printed back |
| TemplateProofs.ScanPrint | internal/template/render.go:84-120 | Segments whose literals hold no '{{' and do not end in '{' are scanned back exactly after printing |
| TemplateProofs.MarkupFromLiterals | internal/template/render.go:100-112 | With escaping, the angle brackets and quotes of the output are those of the template's literals, in order |
| TemplateProofs.UnescapeEscape | internal/template/render.go:108-110 | Reading the five references back undoes the escaping, for every text |
| TemplateProofs.RenderMeaning | internal/template/render.go:84-126 | What Render returns is the template with a piece in the place of every tag: the value of its name, or with escaping a text without markup that reads back as that value |
| TemplateProofs.BytesCounted | internal/template/render.go:66-123 | The limits count the bytes of UTF-8 |
| TemplateProofs.FirstUseMeaning | internal/template/render.go:154-185 | The list holds exactly the names used, without repeats, those of any prefix first |
| TemplateProofs.RenderThenTags | internal/template/render.go:65-185 | If Render succeeds, Tags succeeds and every name it lists is supplied |
| TemplateProofs.TagsThenRender | internal/template/render.go:65-185 | If Tags succeeds and its names are supplied, Render can fail only on a limit, and succeeds if and only if there are at most 500 tags and the output is at most 1 MiB |
| TemplateProofs.OneNameTooOften | internal/template/render.go:113-182 | A template that uses one name more than 500 times is listed as that name and does not render |
| Unsubscribe.RoundTrip | internal/unsubscribe/token.go:49-92 | A signed token verifies with its id and normalised address exactly until its expiry second, and is expired after |
| Unsubscribe.PaddingIsNoDifference | internal/unsubscribe/token.go:107-109 | Spaces around an address make no other token |
| Unsubscribe.LifetimeBounds | internal/unsubscribe/token.go:22-57 | The expiry is ninety days from signing, less than a second short |
| Unsubscribe.TokensDiffer | internal/unsubscribe/token.go:107-109 | Tokens of different id, address or expiry differ, under any secrets |
| Unsubscribe.OnlySigned | internal/unsubscribe/token.go:59-92 | A token accepted carries the MAC of exactly the payload its fields were read from |
| Base64.RawRoundTrip | internal/unsubscribe/token.go:49-76 | Decoding inverts unpadded encoding, for every byte string, in both alphabets |
| Base64.PaddedRoundTrip | internal/webhook/sign.go:83-112 | Decoding inverts padded encoding |
| Decimal.ParseFormat | internal/unsubscribe/token.go:77-92 | Reading a printed 64-bit number gives it back |
| WebhookSign.Sign | internal/webhook/sign.go:74-89 | Sets the digest, input and signature headers and leaves the others |
| WebhookSign.CreatedRoundTrip | internal/webhook/sign.go:69-72 | createdFrom reads back the time signatureParams wrote, for every 64-bit timestamp |
| WebhookSign.BaseLines | internal/webhook/sign.go:58-72 | The base is one line for each component in order and the parameters in the last, as section 2.5 of RFC 9421 has it, whenever no part holds a line break |
| WebhookSign.SignThenVerify | internal/webhook/sign.go:74-115 | A signature is accepted exactly within five minutes either side of its created second, and is stale otherwise |
| WebhookSign.BaseExactly | internal/webhook/sign.go:58-67 | Two bases are equal if and only if method, created time, target and digest are, or one target holds a digest line the other request's digest begins with |
| WebhookSign.BaseInjective | internal/webhook/sign.go:45-67 | Equal bases have equal upper-cased method, normalised target, digest and created time whenever the digests hold no line break, or the targets hold none |
| WebhookSign.BaseShared | internal/webhook/sign.go:58-67 | With a break in both a target and a digest two requests share a base; no digest that ContentDigest makes is one of theirs |
| WebhookSign.NotTransferable | internal/webhook/sign.go:91-115 | With a collision-free MAC a captured signature verifies for no other method, target or body digest, whatever they hold |
| MailBuild.PlainTextFrom | internal/mail/build.go:148-163 | The loop strips tags and joins the words left |
| MailBuild.Build | internal/mail/build.go:35-146 | On success, all headers in order, each free of controls, a blank line and the body; otherwise the first of the four refusals that applies, and with it its error |
| MailBuild.WriteCustoms | internal/mail/build.go:85-92 | Every custom header is written once, legal, in whatever order; else one is illegal, and the error is its own |
| MailProofs.HeadersReadBack | internal/mail/build.go:41-146 | Reading a built message up to its first blank line gives exactly the headers written, in order, and the body: no value adds, ends or folds a header |
| MailFields.MessageRead | internal/mail/build.go:35-146 | A reader of the built message finds one From with the sender, one To that cut at ', ' is the recipients, one Subject, Message-ID, Date and MIME-Version, the Reply-To and List-Unsubscribe fields exactly if set, each custom header once and none under another field's name, the content type the envelope calls for, and the text and HTML in the body |
| MailProofs.PlainTextStable | internal/mail/build.go:148-163 | The derived text holds no angle bracket and is unchanged by a second application |
| MailProofs.StripTag | internal/mail/build.go:151-161 | Text before a tag is kept, the tag becomes one space, and the rest is treated alike |
| Bounce.ParseStatus | internal/bounce/classify.go:155-175 | Finds the dotted sections of one to three digits the text begins with, exactly when it begins so with no digit following |
| Bounce.BeginsOnce | internal/bounce/classify.go:155-175 | A text begins with at most one status |
| Bounce.FindEnhancedStatus | internal/bounce/classify.go:138-153 | The leftmost status that begins with 4 or 5 and follows no digit |
| Bounce.StatusClass | internal/bounce/classify.go:117-122 | A status found begins with 4 or 5, so the class always decides |
| Bounce.FindReplyCode | internal/bounce/classify.go:178-192 | The first field that is a code from 200 to 599 |
| Bounce.ReplyCodeMeaning | internal/bounce/classify.go:178-192 | That is the leftmost such code standing between separators or the text's ends, and none is found only if none stands anywhere |
| Bounce.CodeText | internal/bounce/classify.go:182-190 | A code is the decimal print of a number from 200 to 599 |
| Bounce.SeparatedCode | internal/bounce/classify.go:179-181 | A character after a code leaves it standing if and only if it is one of the five separators |
| Bounce.Phrases | internal/bounce/classify.go:86-89 | A complaint is any of the five phrases |
| Bounce.TablesFollowClass | internal/bounce/classify.go:56-81 | Of all statuses in the tables only 5.2.2 departs from its class |
| Bounce.Classify | internal/bounce/classify.go:98-135 | Complaint, else status, else reply code, else unknown, with the reason for that; retryable exactly when it does not suppress |
| Bounce.SuppressesExactly | internal/bounce/classify.go:98-135 | An address is suppressed if and only if there is a complaint, or the leftmost status is of class 5 and not 5.2.2, or no status stands anywhere and the leftmost code is 500 or more |
| Bounce.ReplyLine | internal/bounce/classify.go:137-153 | In a reply line the status after the code is the one read, whatever follows; a class of up to three digits is taken too |
| Bounce.OnlyTheFirstMebibyte | internal/bounce/classify.go:93-101 | Responses with the same first 2^20 bytes get the same ground |
| Suppressions.IndexAgrees | internal/store/suppressions.go:32-102 | After any run of Suppress and Unsuppress the table lists an address if and only if it was suppressed and not lifted since, with the reason first given, if no hashes collide |
| Suppressions.Store.Suppress | internal/store/suppressions.go:32-42 | Adds the row unless its hash is listed; refused exactly if the statement is or the table does not know the reason |
| Suppressions.Store.Unsuppress | internal/store/suppressions.go:96-102 | Removes the row of that hash and no other |
| Suppressions.Store.IsSuppressed | internal/store/suppressions.go:45-52 | Whether the table lists the address, or an error exactly if the statement fails |
| Suppressions.Store.FilterSuppressed | internal/store/suppressions.go:57-94 | The two loops split the addresses into those kept and those blocked; an error exactly if the statement fails |
| Suppressions.FilterPartitions | internal/store/suppressions.go:57-94 | Each list keeps the order, together they are all the addresses, and an address is blocked if and only if listed |
| Suppressions.PaddingIsNoDifference | internal/store/suppressions.go:19-21 | Spaces around an address make no other of it |
| Suppressions.AcceptRecipients | internal/httpapi/send.go:112-135 | Kept recipients are the parsed, deduplicated, filtered list; refused exactly when malformed, when the look-up fails or when nobody is left, and with the blocked then |
| Suppressions.AcceptedRecipients | internal/httpapi/send.go:112-135 | The kept are an order-preserving part of the request, no two equal but for case, none listed; every recipient asked for is kept or blocked in some spelling, blocked if and only if listed |
| Address.ParseRecipients | internal/mail/address.go:95-117 | The loop keeps each address at its first spelling, or gives the first error |
| Address.RecipientsMeaning | internal/mail/address.go:95-117 | The list keeps the order, repeats no address in any case, and leaves none out |
| Address.AddressMeaning | internal/mail/address.go:57-79 | An address is accepted if and only if it holds no control, no blank in its own part, parses, and has a local part and a host around its last '@' |

## Left out

- HTTP serving, request decoding, the console and its sessions, configuration, logging and command-line set-up.
- The rest of buildMessage (internal/httpapi/send.go:137-217): rendering, validation and encoding of the other fields one after another; each part it calls is modelled.
- Signing: DKIM, key custody and MarkSigned. Signing answers a signed message or an error, and an error fails the message as in the source.
- Cryptography, the address parser, Q-encoding, quoted-printable, the multipart writer, URL normalisation and case mapping, which are parameters.
- The HTTP clients, the DNS resolver and the comparison of TXT records: their outcomes are arbitrary.
- Postgres beyond atomic statements, the row locks of claims and of the idempotency load, unique-index waits, commit and rollback; connection pools, migrations, `updated_at` and the surrogate ids of deliveries and domains, whose unique columns name the same rows.
- What a UTF-8 database refuses is modelled for `last_error`; any other statement may be refused or not.
- Message bodies, subjects and headers in the queue: no statement of the protocol depends on them.
- Deleting messages, endpoints or API keys, and the statuses 'delivered', 'bounced' and 'cancelled', which no modelled statement writes.
- Replacing the token of a domain that is set up again, which changes no status.
- Address tables of the network guard, API key generation, argon2 hashing.
- DeliverySafety.CeilingHolds: bounds recorded events; DeliveryHandoffs.HandoffsBounded counts those handed over.
- DeliveryFairness.NoStarvation: counts only claims that pass the message over while it is due and not row-locked, and says nothing of a message that is never due.
- DomainRecheck.DueIsChecked: is about one checker; the selection takes no row locks, so two checkers may look at the same batch.
- Suppressions.AcceptedRecipients: assumes that lower-casing makes no character a space or stops one being a space.
- MailFields.MessageRead: assumes that only the two letters x have the upper case X. The recipients come back when none holds ', '.
- WebhookSign.BaseInjective: assumes that upper case leaves no small 't'. Where a target and a digest both hold a line break it is not promised, which only a direct caller of SignatureBase can meet (WebhookSign.BaseShared).
