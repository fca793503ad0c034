# Kazna: a verified model of the payment core

Kazna takes a payment for an application's order, calls a payment provider once for it, and keeps what it knows in
PostgreSQL. Requests run concurrently, each as a chain of separately committed statements, and can die between any two
of them. This project states what that chain guarantees and proves it with Dafny 4.11: `dafny verify dfyconfig.toml`.

## How it is modelled

- `Tables` holds the rows and the effect of every SQL statement; `Database` holds the same statements as methods of an
  object, and transactions whose inserts appear at commit.
- `Protocol` is the step machine: every request is a program counter with its local snapshot, every statement one step,
  every step can be the last. `createLocal` exists both as one step and statement by statement under the order lock.
  The world carries a record of insertion order, calls and provider readings. No code reads it (`Effects.RecordUnread`),
  and in `Service` it is ghost. `Effects` also has the control flow and the writes of a step, on which proofs rest.
- `Invariant`, `WorldSteps`, `Stability`, `Steps` and `Runs` prove the invariant: what each request may rely on while
  others move, and that each step keeps it.
- `Columns`, `Requested`, `Outcomes`, `Responses` and `Refreshes` say what a step writes, stores, sends and answers in
  terms of the request, the rows and the words of the provider's answer.
- `Histories`, `Idempotency`, `Conflicts`, `Answers`, `Atomicity`, `Linearization`, `Ledger`, `Isolation` and
  `Projection` draw the conclusions over whole runs, whatever the provider answers.
- `Settlement` puts an honest provider beside the core: idempotent per key, terminal states sticky, no payment behind a
  definitive refusal, and free to process a request long after the caller gave up. `HonestRuns` says what that adds over
  runs. `Witness` builds the runs that show which promises fail.
- `Service` is the service as code: a class whose methods run the statements on the shared tables while arbitrary steps
  of other requests run between them (`Await`). A ghost run records what happened, and the methods keep
  it a run of the step machine, so every theorem about runs is a theorem about this code. The methods read the branches
  of a step off `ServiceSteps`, which states nothing of its own.
- `ProviderClient` and `Amounts` are the outcome classifier and the money text, `Validation` and `Fingerprint` the
  request's normal form and its hash input, `Slug`, `Attach`, `AttachRuns` and `Cipher` the application side.

Orders, clients' keys, hashes, uuids and provider ids are numbers where they are only compared; provider id 0 stands for
the empty text. The database shows each statement the rows committed at that moment and checks unique indexes at inserts
and updates; a request that would wait for a lock either finds it free or fails. Random ids never repeat.

## What the proofs found

- The comment at internal/payments/service.go:203-207 says the order lock stops a concurrent success from slipping
  between the paid check and the insert. It does not: the success is written by `ApplyProviderStatus`, which takes no
  lock. `Witness.PaidOrderGetsNewAttempt` is the run, `Linearization.CommitRefinesExactly` and
  `Atomicity.SingleLiveExactly` say exactly when it happens. It can end in two provider payments for one order although
  the provider is honest (`Witness.DoubleChargeHappens`); `HonestRuns.DoubleChargeExactly` says exactly when.
- Two attach calls can leave an application without a default provider although both succeed
  (`AttachRuns.DefaultCanBeLost`); `AttachRuns.OneDefaultExactly` says exactly when.
- `creation_unknown` is final in this code: no statement leaves it (`PaymentStates.EdgesNeverTaken`,
  `Histories.RowHistory`). Such an order stays blocked by its open attempt.
- docs/PAYMENT_LIFECYCLE.md section 2 draws no edge from creation_unknown to succeeded and none from created to
  canceled; the table in internal/payments/state_machine.go:17-38 has both. Section 3 says further attempts come only
  through the attempts endpoint; `CreatePayment` takes the same path and creates them too. The model follows the code.
- docs/RELIABILITY.md section 4 lists 400, 401, 403 and 422 as settled answers. The code settles every answer outside
  2xx, 429 and 5xx, such as 302, 404 or 409 (`ProviderClient.DefinitiveIsRefusal`); `Settlement` assumes that the
  provider made no payment behind any of these.
- docs/RELIABILITY.md section 2 says the stored parameters suffice to replay a call unchanged. `request_body` alone does
  not (`Histories.BodyAloneIsNotEnough`); together with the payment row it does (`Histories.WriteAhead`).
- The provider-id index spans applications, so one application's row can make another's write fail
  (`Witness.ForeignRowRefusesWrite`). It needs a provider that gives one id twice: the ids of an honest provider never
  collide (`Settlement.HonestIdIsFree`), so beside it applications never affect each other
  (`HonestRuns.AloneBesideHonest`).
- A success without a URL is possible in one form: an answer without a confirmation URL is stored as the empty text,
  which counts as set (`Answers.EmptyUrlExactly`). The status in the answer to a create call is ignored.
- Amounts above int64 wrap around silently in the parser, `-0.50` style texts read as positive kopecks, and a sign is
  read in the fraction too, so that `1.-5` is 95 kopecks (`Amounts.ParseDecimal`, `Amounts.AmountRoundTrip`,
  `Amounts.SignedFraction`).
- Validation judges the Idempotency-Key trimmed, the tables store it as it arrived (internal/payments/validation.go:20,
  internal/payments/service.go:104-107).
- A retired key whose 4-byte id equals the primary's replaces it for decryption (`Ciphers.PrimaryReadable`).

## Model

| member | source | states |
|---|---|---|
| Runs.RunInv | internal/payments/service.go:93-537 | In every state of every run of any number of interleaved, possibly dying requests: rows, operations, client keys, numbering and provider ids are consistent, and each request's program counter fixes the state of the rows it owns |
| Runs.InvStep | internal/payments/service.go:93-537 | Any single step, arrival or death of a request keeps that invariant; `SetPaymentCreated` needs no status guard because only the owner of the row can reach it |
| Runs.StepInv | internal/payments/service.go:187-487 | A step changes only rows its request holds, acquires or draws, or settles a pending row; nobody else's knowledge is disturbed |
| Effects.RecordUnread | internal/payments/service.go:93-537 | The record of insertions, calls and readings decides nothing: without it the same steps are possible, with the same tables and answers |
| Columns.RowWrites | internal/database/sqlcgen/payments.sql.go:365-465 | Every step writes exactly the stated columns of a payment row, clock readings included. The owner always finds its row in the state its program counter says, so no guard of its statements ever turns a write away; only a stale refresh, or a provider id already taken, writes nothing |
| Columns.OperationWrites | internal/database/sqlcgen/payments.sql.go:36-40 | The same for operation rows: started once with one attempt counted, completed with the outcome its request reached |
| Requested.RowIsAsAsked | internal/payments/service.go:250-310 | In every run each payment was committed by a request, and its row, its operation and its key say what that request asked for, field by field, under the provider account that request had found |
| Requested.KeyIsAsAsked | internal/payments/service.go:276-310 | The same from the key: the payment a key is bound to was committed by a request with that key, as it asked |
| Requested.AccountWasFound | internal/payments/service.go:125-132 | The account a creation works with is the one its own lookup found |
| Requested.CallsAreAsAsked | internal/payments/service.go:337-350 | In every run each operation repeats its payment row, and each call made for it asks for exactly that amount, currency, description, return URL and metadata, with the payment's own identifiers and the operation's key |
| Requested.AnswerIsAsAsked | internal/payments/service.go:155-179 | Whoever is answered with a payment, at first or by a replay, is answered with the payment asked for: with a collision-free hash every field of the row is the request's own |
| Outcomes.AnswerSettles | internal/payments/service.go:350-405 | The step that takes the provider's answer goes on to cancel exactly when nothing was sent or the answer is outside 2xx, 429 and 5xx, to store exactly when the answer carries a payment, and to leave it unknown otherwise |
| Outcomes.AnswerDecides | internal/payments/service.go:350-406 | Over runs: a request that does not die after its call was answered reports a refusal, with its code and a canceled row, exactly for such an answer; pending with an unknown row exactly for an answer that proves nothing; and otherwise the answer's payment, or an error exactly when another row carries its id |
| Responses.RespondsExactly | internal/payments/service.go:93-406 | Which step answers a create request with what: every error if and only if its cause holds of the rows at that step, every payment as the row then current, marked replayed and pending exactly as the reading step says |
| Responses.EveryResponseIsGiven | internal/payments/service.go:93-406 | In every run each response was given so at an earlier step of its request, or the request died there |
| Responses.PaidOrderCloses | internal/payments/service.go:215-223 | Once an order is paid, a request that has not passed its locked paid check never writes a row and never answers with a payment of its own |
| Responses.RetryReplays | internal/payments/service.go:103-179 | A request that reads its key after it was bound to its own fingerprint writes nothing and, unless it dies, is answered with the bound payment, even if the order is paid or has no account any more |
| Refreshes.GetSteps | internal/payments/service.go:424-487 | Where a get request goes: refreshing exactly when its row is open, known to the provider and due, writing exactly when the answer says succeeded or canceled, answering with the latest row unless that read failed |
| Refreshes.RefreshSteps | internal/payments/validation.go:142-156 | From the words of the answer: succeeded is written exactly for "succeeded", canceled exactly for "canceled", nothing for any other, and what is recorded is what was said |
| Refreshes.FoundIsCurrent | internal/payments/service.go:424-438 | A get request answers with the application's row as the table had it at one of its own reads, and with nothing only if there was none then or the request died |
| Refreshes.SettledOnReread | internal/payments/service.go:478-486 | After its write a refreshing request reads a terminal row, whoever settled it |
| Refreshes.SettledWasTold | internal/payments/service.go:461-487 | In every run a row is succeeded only if an earlier answer to a read of its own provider id said succeeded, and a row with a provider id is canceled only if such an answer said canceled |
| Histories.StepIsLegal | internal/payments/state_machine.go:17-51 | Every committed status change of every run is an edge of the transition table, stale refreshes and the unguarded write included |
| Histories.RowHistory | internal/database/sqlcgen/payments.sql.go:411-465 | Over any stretch of any run a row stays, keeps its identity, its provider id and URL, and once terminal (with its completion time) or creation_unknown it never changes again |
| Histories.AtMostThreeChanges | internal/payments/state_machine.go:17-38 | No payment changes status more than three times, and the changes made plus those left by rank never exceed three (the whole table would allow four) |
| PaymentStates.TableIsRanked | internal/payments/state_machine.go:17-43 | The table is acyclic, leaves no terminal state, and contains every edge the code takes |
| PaymentStates.EdgesNeverTaken | internal/payments/state_machine.go:18-31 | The table's edges that no statement takes: created to canceled, and every way out of creation_unknown |
| Histories.OneOperationEach | internal/payments/service.go:284-316 | Each payment has exactly one operation row; the two statuses stay coupled whatever died in between, provider id and URL are both set or both null, and completed_at is set exactly for terminal rows |
| Histories.SucceededWasRead | internal/payments/service.go:451-487 | A succeeded row's provider id was read as succeeded from the provider, and no other payment carries that id |
| Histories.ReadingsComeFromAnswers | internal/payments/service.go:461-473 | A provider status is on record only because a get request received an answer about that id whose text stands for it |
| Histories.AtMostOneCall | internal/payments/service.go:330-350 | For every provider key: calls made <= attempt_count <= 1, and no two operations share a key |
| Histories.WriteAhead | internal/payments/service.go:276-350 | When a call is made its operation row, key and body are already committed with attempt_count 1, nothing was sent for it before, and what is sent is what the committed rows rebuild |
| Histories.BodyAloneIsNotEnough | internal/payments/validation.go:108-130 | request_body alone does not determine the request: the same stored body goes out with different metadata |
| Idempotency.KeyBoundForEver | migrations/000003_payments.up.sql:93-101 | An (application, key) pair is bound at most once and for ever, to one payment of that application |
| Idempotency.OnePaymentPerKey | internal/payments/service.go:157-179 | All responses under one key that carry a payment, at whatever times, carry the same one, for the same fingerprint |
| Idempotency.ResponseIsOwn | internal/payments/service.go:525-537 | A create response never carries another application's payment |
| Idempotency.ReusedKeyConflicts | internal/payments/service.go:103-160 | A request whose key is bound to another fingerprint changes no row from then on, gets no payment, and is told of the conflict by its key read |
| Conflicts.BoundByRequest | internal/payments/service.go:300-310 | In every run a bound key was bound by a request of that run carrying it, to that request's fingerprint |
| Conflicts.OtherPayloadConflicts | internal/payments/service.go:103-160 | In every run a request whose key a request with another payload has bound changes no row from then on, gets no payment, and is told of the conflict by its key read |
| Conflicts.ConflictMeansOtherPayload | internal/payments/service.go:157-160 | The converse: whoever is told of a conflict used a key that a request with another payload had bound |
| Idempotency.RaceAlwaysResolves | internal/payments/service.go:137-146 | The re-read after a lost race always finds the record, also for one key used on two orders; a response reports the race only when its own re-read failed |
| Idempotency.NeverImpossible | internal/payments/service.go:155-179 | No response of any run reports a missing payment or an illegal transition |
| Idempotency.NoHollowSuccess | internal/payments/service.go:155-179 | Pending=false only for a terminal payment or one with a URL set; Pending=true only for an open payment without one |
| Answers.StoredFromAnswer | internal/payments/service.go:350-365 | In every run, once a payment has a URL, its provider id and URL are those of one answer given earlier to the call of its own operation |
| Answers.EmptyUrlExactly | internal/providers/yookassa/payments.go:101-113 | In every run a stored URL is the empty text exactly when the answer it came from carried no confirmation URL |
| Atomicity.AtomicSingleLive | internal/payments/service.go:187-317 | With createLocal as one step no order ever has two attempts that are open or succeeded, so never two succeeded ones |
| Atomicity.SingleLiveExactly | internal/payments/service.go:203-223 | Statement by statement that holds throughout a run if and only if every commit finds its order without a succeeded attempt |
| Atomicity.PaidCommitBreaks | internal/payments/service.go:312-314 | Any commit on a paid order leaves two live attempts |
| Witness.PaidOrderGetsNewAttempt | internal/payments/service.go:203-263 | A reachable state of the statement-level machine, beside an honest provider, has on one order a succeeded attempt 1 and an open attempt 2 created after the success: the comment at the lock promises more than the lock gives |
| Atomicity.GapFree | internal/database/sqlcgen/payments.sql.go:374-378 | Attempts of an order are numbered 1..n without gaps, all earlier ones terminal, at statement granularity too |
| Atomicity.OneOpenAttempt | migrations/000003_payments.up.sql:37-53 | Rows of one order have different numbers and at most one of them is open |
| Atomicity.ActiveMeansActive | internal/payments/service.go:263-269 | ErrActiveAttemptExists is returned only when an open attempt exists; the number itself never clashes |
| Linearization.CreateLocalDecides | internal/payments/service.go:187-317 | The atomic step answers by the specification Decide: paid, key taken, attempt active, or an insert numbered one past the order's attempts |
| Linearization.EndingIsAtomic | internal/payments/service.go:208-316 | Every ending of the statement-level transaction is the atomic answer at that moment if and only if the order is unpaid then or the answer is that it is paid; a refusal for an open attempt is the atomic answer at the transaction's key check |
| Linearization.CommitIsAtomicInsert | internal/payments/service.go:250-316 | On an unpaid order the commit writes exactly the rows the atomic step with the same ids writes |
| Linearization.CommitRefinesExactly | internal/payments/service.go:203-263 | The commit differs from the atomic step exactly when, after its paid check, a refresh made the order paid |
| Linearization.PaidOnlyByRefresh | internal/database/sqlcgen/payments.sql.go:14-23 | An order becomes paid only by the status write of a refresh, which takes no lock |
| Linearization.LandingStep | internal/payments/service.go:203-223 | If a creation past its paid check sees its order paid, a lockless refresh landed a success after that check |
| Linearization.LandedStays | internal/database/sqlcgen/payments.sql.go:392-397 | A success that landed stays |
| Settlement.NoDoubleCharge | internal/payments/service.go:377-406 | Beside an honest provider and with createLocal as one step, no order ever has two provider-side payments that are not canceled |
| Settlement.NoDoubleChargeIfUnpaid | internal/payments/service.go:203-223 | The same at statement level for every run in which no attempt is committed on a paid order |
| HonestRuns.DoubleChargeExactly | internal/payments/service.go:203-223 | Statement by statement, beside an honest provider: an order has two provider payments that are not canceled if and only if an attempt was committed on the paid order and the provider made a payment for it that it has not canceled |
| Witness.DoubleChargeHappens | internal/payments/service.go:203-350 | A run beside an honest provider that ends with two provider payments for one order, the first succeeded and the second pending |
| Settlement.CanceledIsDead | internal/payments/service.go:400-405 | A row is settled as canceled only if the provider has no live payment for it and never will |
| Settlement.SucceededIsPaid | internal/payments/service.go:472-487 | A row says succeeded only if the provider's payment for exactly this row's key succeeded, and carries its id |
| Settlement.NothingUntracked | internal/payments/service.go:276-316 | Everything the provider ever made belongs to a committed payment, through the key of its operation, even when the answer was lost |
| Settlement.HonestIdIsFree | migrations/000003_payments.up.sql:44-47 | Beside an honest provider the id to be stored is never empty and never taken, so the write of a created payment is not refused |
| Settlement.ShopStep | internal/payments/service.go:327-406 | Every step of the core and of the provider, however late it processes a request, keeps tables and provider books in agreement |
| Ledger.RunRefinesLedger | internal/payments/service.go:208-316 | The tables refine a ledger per order that only appends behind closed attempts and only moves its last line along the table |
| Ledger.AtomicRunRefinesStrictLedger | internal/payments/service.go:187-317 | With createLocal as one step they refine the ledger that appends only behind canceled attempts |
| Ledger.BookIsTable | migrations/000003_payments.up.sql:9-38 | The ledger lists exactly the rows: line n of an order is its payment with attempt number n |
| Ledger.StepRefines | internal/payments/service.go:187-487 | Every step is a ledger step, a strict one when it keeps a single live attempt |
| Isolation.NoInterference | internal/database/sqlcgen/payments.sql.go:14-23 | A step of one application's request leaves every payment, operation, idempotency row and request of the others untouched, although writes filter by payment id alone |
| Isolation.StepOnOwnRows | internal/payments/service.go:525-537 | A step does to its application's rows, and answers, exactly what it would if no other application's rows existed, unless a foreign row holds its provider id |
| Isolation.ForeignIdInterferes | migrations/000003_payments.up.sql:44-47 | That exception is exact: when only a foreign row holds the provider id the write is refused, and on the application's own rows it is not |
| Witness.ForeignRowRefusesWrite | migrations/000003_payments.up.sql:44-47 | Such a state is reached beside a provider that gives one id to two applications: the second application's write fails because of the first one's row |
| HonestRuns.NothingForeignHere | migrations/000003_payments.up.sql:44-47 | Beside an honest provider it never is: in every state of every run the index answers every request as on its application's own rows |
| Projection.AloneIsTheSame | internal/payments/service.go:93-537 | For every run that meets no foreign provider id there is a run of the application's own steps alone in which its rows, its requests and their answers are the same |
| HonestRuns.AloneBesideHonest | internal/payments/service.go:93-537 | Beside an honest provider that holds of every run, without a condition |
| Projection.OthersShadow | internal/database/sqlcgen/payments.sql.go:14-23 | Another application's step, arrival or death changes nothing an application can see |
| Isolation.TwoRuns | internal/database/sqlcgen/payments.sql.go:259-261 | Two states that agree on an application's rows and requests still agree after the same step of one of its requests |
| Tables.NextAttemptNumber | internal/database/sqlcgen/payments.sql.go:374-378 | One past the largest number of the order's rows, 1 when there are none |
| Services.Service.Create | internal/payments/service.go:93-153 | Run as code between arbitrary steps of other requests, with failures anywhere: what happened is a run of the step machine, nothing earlier is lost, and the response is the one bound to the key and not hollow |
| Services.Service.CreateFrom | internal/payments/service.go:103-136 | The chain of reads before createLocal ends in the response it returns |
| Services.Service.CreateWith | internal/payments/service.go:136-152 | createLocal, the re-read after a lost race, or the provider call, ends in the response it returns |
| Services.Service.CreateLocal | internal/payments/service.go:187-317 | One transaction, statement by statement: it ends created, raced or failed, at the matching point of the machine |
| Services.Service.CreateLocalAlone | internal/payments/service.go:187-317 | The same statements with nothing between them are exactly the atomic step |
| Services.Service.LockOrder | internal/database/sqlcgen/payments.sql.go:347-351 | The lock is held from here on, or the request has failed waiting |
| Services.Service.InsertPayment | internal/payments/service.go:250-269 | The row inserted, or ErrActiveAttemptExists, by the unique indexes on what is committed at that moment |
| Services.Service.InsertOperation | internal/payments/service.go:276-298 | The operation row with a fresh key and the request body |
| Services.Service.InsertKey | internal/payments/service.go:300-310 | The client key inserted, or a lost race |
| Services.Service.Commit | internal/payments/service.go:312-316 | The three rows become visible at once |
| Services.Service.FindRequest | internal/payments/service.go:103-114 | The key's record as the tables have it at that moment, and where the request goes from there |
| Services.Service.OrderPaid | internal/payments/service.go:116-123 | The paid check before the transaction |
| Services.Service.OrderPaidLocked | internal/payments/service.go:215-223 | The paid check under the lock |
| Services.Service.KeyTakenLocked | internal/payments/service.go:225-235 | The second key check, under the lock |
| Services.Service.NextNumber | internal/payments/service.go:237-243 | The attempt number the tables give at that moment |
| Services.Service.Replay | internal/payments/service.go:155-179 | The current row of the bound payment, a conflict, or not found |
| Services.Service.CallProvider | internal/payments/service.go:319-373 | From credentials to the response, ending in the response it returns |
| Services.Service.BecomeCreating | internal/payments/service.go:327-332 | The transition is validated on the local copy before it is written |
| Services.Service.BeginOperation | internal/payments/service.go:333-335 | The operation is in progress with one attempt counted before anything is sent |
| Services.Service.Send | internal/payments/service.go:337-350 | The request built from the input and the local row is recorded as the operation's call |
| Services.Service.PersistCreated | internal/payments/service.go:357-365 | The row becomes pending with the provider's id and URL, or the unique provider id refuses |
| Services.Service.HandleCreateFailure | internal/payments/service.go:375-406 | A refusal settles the row as canceled, anything else leaves it unknown, and the response says so |
| Services.Service.CompleteOperation | internal/payments/service.go:408-419 | The operation's result is recorded, or its loss is ignored |
| Services.Service.GetPayment | internal/payments/service.go:421-430 | The application's own row with its identity, fresh or as first read, or nothing |
| Services.Service.ReadForGet | internal/payments/service.go:432-438 | The first read and whether a refresh is due |
| Services.Service.ReadProvider | internal/payments/service.go:451-476 | Only a legal transition from the snapshot goes on to a write |
| Services.Service.ApplyState | internal/payments/service.go:478-486 | The guarded status write, or the first read as the answer |
| Services.Service.ReadLatest | internal/payments/service.go:486-486 | The row after the write, or the first read |
| Services.Service.Await | internal/payments/service.go:93-487 | Between two statements any steps of other requests can run, and none moves this request or undoes the past |
| Database.Queries.ApplyProviderStatus | internal/database/sqlcgen/payments.sql.go:14-29 | Writes status and completion time of non-terminal rows only |
| Database.Queries.SetPaymentCreated | internal/database/sqlcgen/payments.sql.go:424-431 | Writes any row with the id; fails on a provider id another payment carries |
| Database.Queries.SetPaymentCreationUnknown | internal/database/sqlcgen/payments.sql.go:450-455 | Writes creating rows only |
| Database.Queries.SetPaymentCanceled | internal/database/sqlcgen/payments.sql.go:411-417 | Writes non-terminal rows only |
| Database.Queries.MarkPaymentCreating | internal/database/sqlcgen/payments.sql.go:365-367 | Writes created rows only |
| Database.Queries.StartPaymentOperation | internal/database/sqlcgen/payments.sql.go:467-471 | Starts pending operations only and counts the attempt |
| Database.Queries.CompletePaymentOperation | internal/database/sqlcgen/payments.sql.go:36-40 | Writes any operation with the id |
| Database.Queries.OrderHasSucceededPayment | internal/database/sqlcgen/payments.sql.go:392-397 | Whether the order has a succeeded row |
| Database.Queries.CountUnfinishedPayments | internal/database/sqlcgen/payments.sql.go:53-55 | The number of rows neither succeeded nor canceled |
| Database.Transaction.CreatePayment | migrations/000003_payments.up.sql:37-53 | Inserts unless one of the two unique indexes on the order refuses |
| Database.Transaction.CreateIdempotencyRequest | migrations/000003_payments.up.sql:93-101 | Inserts unless the key is there |
| Database.Transaction.Commit | internal/payments/service.go:312-314 | All inserted rows appear together |
| ProviderClient.DefinitiveIsRefusal | internal/providers/errors.go:47-58 | A failed exchange is definitive exactly when nothing was sent or the answer was outside 2xx, 429 and 5xx; foreign errors never are |
| ProviderClient.RetryableIsTransient | internal/providers/yookassa/client.go:109-178 | Retryable exactly for lost exchanges, 429 and 5xx, and then never definitive; state-unknown exactly for unreadable 2xx answers |
| ProviderClient.CodesExactly | internal/providers/yookassa/client.go:111-178 | Which exchange gets which error code and status, 401, 403 and the malformed-credentials body included |
| ProviderClient.PaymentOnlyFromAnswer | internal/providers/yookassa/payments.go:86-136 | A payment comes back exactly from a 2xx answer with one of four known status texts and a readable amount, and is that answer's in every field, its confirmation URL included |
| ProviderClient.EmptyIdNeverRead | internal/providers/yookassa/payments.go:70-76 | A read of an empty provider id always fails |
| Amounts.AmountRoundTrip | internal/providers/yookassa/client.go:180-212 | Parsing a printed amount gives it back exactly for non-negative amounts and whole negative ones, over all of int64 |
| Amounts.ParseDecimal | internal/providers/yookassa/client.go:190-212 | Of digits.digits the parser gives the floor of a hundred times the value when that fits 64 bits, and silently wraps around above, as long as the whole part fits |
| Amounts.ParseWhole | internal/providers/yookassa/client.go:190-197 | The same for a whole amount without a dot |
| Amounts.ParseIntExactly | internal/providers/yookassa/client.go:192-210 | An integer is read from digits behind an optional sign that fit 64 bits, with its value, and from nothing else |
| Amounts.OnlyNumbersParse | internal/providers/yookassa/client.go:190-212 | Whatever is read as an amount is a number, or a number, a dot and a fraction that begins like a number |
| Amounts.SignedFraction | internal/providers/yookassa/client.go:198-210 | A fraction may carry a sign of its own: 1.-5 is read as 95 kopecks |
| Amounts.FormatAmountMinor | internal/providers/yookassa/client.go:180-188 | The loop-free printer against its specification, int64 negation included |
| Amounts.ParseAmountMinor | internal/providers/yookassa/client.go:190-212 | The parser, statement by statement, against its specification |
| Validation.CreatePaymentInput.Validate | internal/payments/validation.go:17-79 | Normalizes in place; success only when every rule holds of what arrived, otherwise a broken rule of the earliest check, with later fields untouched |
| Validation.ValidateKey | internal/payments/validation.go:20-26 | The key is judged trimmed; it is used untrimmed |
| Validation.CheckMetadata | internal/payments/validation.go:52-59 | In whatever order entries are visited, it succeeds exactly when all fit, and names a rule some entry breaks |
| Validation.AcceptedFits | internal/payments/validation.go:17-60 | What is accepted fits the columns and limits counted in characters; an ASCII request is accepted exactly when it fits them and its return URL passes |
| Validation.AsciiLen | internal/payments/validation.go:24-58 | Lengths are in bytes: a text is as long as it looks exactly when it is ASCII |
| Validation.ByteCounts | internal/payments/validation.go:24-58 | How many bytes each character counts (section 3 of RFC 3629) |
| Validation.EarlierHold | internal/payments/validation.go:20-76 | The order of the checks: whoever is told of a broken rule has kept the earlier ones |
| Validation.NormalizedOnlyTrims | internal/payments/validation.go:28-79 | Normalization cuts white space off three texts, fills in a missing currency and return URL, and changes nothing else |
| Validation.NormalizedIsStable | internal/payments/validation.go:17-79 | What validation accepts it accepts again unchanged |
| Validation.ProviderMetadataOf | internal/payments/validation.go:120-130 | The loop builds the map of the specification |
| Validation.TraceWins | internal/payments/validation.go:120-130 | Our order and payment ids override the client's entries, every other entry survives |
| Fingerprint.VisitOrderIrrelevant | internal/payments/validation.go:81-105 | The hashed text does not depend on the order in which the metadata map is visited |
| Fingerprint.CanonicalInjective | internal/payments/validation.go:83-105 | Payloads that differ have different texts, escapes and absent metadata included |
| Fingerprint.SameFingerprint | internal/payments/validation.go:81-105 | With a collision-free hash two requests have one fingerprint exactly when order, amount, currency, description, return URL and metadata agree |
| Fingerprint.ConflictExactly | internal/payments/service.go:157-160 | A key read that finds the fingerprint of another request answers with a conflict exactly when the payloads of the two requests differ |
| Fingerprint.QuotePrefixFree | internal/payments/validation.go:100-100 | A quoted JSON string can be cut off a text in one way only (section 7 of RFC 8259 with the escapes of encoding/json) |
| Fingerprint.SortedUnique | internal/payments/validation.go:81-82 | There is one way to list a set of keys in order |
| Slugs.SlugifyForm | internal/applications/service.go:520-534 | Every name gives a non-empty slug of at most 64 characters a-z, 0-9 and single inner dashes |
| Slugs.FormIsFixed | internal/applications/service.go:520-527 | A text is in that form exactly when slugify leaves it alone; slugify is idempotent |
| Slugs.SlugIsItsWords | internal/applications/service.go:29-29 | A slug is the words of the lower-cased name, cut at every run of other characters, with one dash between two words, as far as 64 characters reach and without a dash at the cut |
| Slugs.SlugSpellsName | internal/applications/service.go:520-527 | The slug spells the letters and digits of the lower-cased name in order, all of them when the name is short; app only when there are none |
| Slugs.RetryForm | internal/applications/service.go:90-97 | Every retry slug keeps the form and bound and ends in its suffix |
| Slugs.RetryKeeps | internal/applications/service.go:90-97 | A retry slug is the base, as far as 57 characters reach without a dash at the cut, a dash and the suffix |
| Slugs.RetryDistinct | internal/applications/service.go:90-97 | Different suffixes give different retry slugs |
| Slugs.Applications.CreateApplication | internal/applications/service.go:63-117 | Takes the first of five candidates no unique index refuses, in normal form and new; a conflict exactly when all five were refused, a failure exactly when the first not refused fails otherwise, and then nothing changes |
| Slugs.Applications.CreateApplicationTx | internal/applications/service.go:119-153 | Inserts, or reports a unique violation of slug or key prefix alike |
| ProviderLinks.Connections.AttachProviderAccount | internal/applications/service.go:297-387 | An uninterrupted call: which error when, the account row reused or created, and the links of the specification |
| ProviderLinks.Connections.DefaultFlag | internal/applications/service.go:355-368 | The scan and the flag: asked for, kept, or first provider |
| ProviderLinks.Connections.ClearDefault | internal/database/sqlcgen/applications.sql.go:32-36 | Clears the application's default and nothing else |
| ProviderLinks.AttachKeepsOneDefault | internal/applications/service.go:355-381 | Keeps exactly one default per application with a provider, obeys an explicit request, unasked leaves the application's default where it is or gives it its first, and leaves other applications alone |
| ProviderLinks.OnlyOwnLinks | internal/applications/service.go:312-381 | What a call does to its application depends on that application's own links alone |
| ProviderLinks.OkFits | internal/applications/service.go:491-505 | Accepted input fits its columns; ASCII input is accepted exactly when it does |
| ProviderLinks.TrimsEach | internal/applications/service.go:297-300 | White space around the three texts of a shop is dropped and nothing else |
| ProviderLinks.AlwaysOneDefault | internal/applications/service.go:355-381 | Any sequence of uninterrupted calls leaves exactly one default each |
| AttachRuns.AtMostOneDefault | migrations/000002_applications.up.sql:68-71 | Statement by statement, in every run: at most one default per application |
| AttachRuns.OneDefaultExactly | internal/applications/service.go:320-381 | Every application with a provider has exactly one default throughout a run if and only if no call commits a stale choice |
| AttachRuns.DefaultCanBeLost | internal/applications/service.go:320-381 | A run that ends with two providers and no default, every call successful |
| AttachRuns.RunAlone | internal/applications/service.go:312-386 | A call that runs while nobody writes is the uninterrupted call |
| Ciphers.RotationKeepsSecrets | internal/security/cipher.go:38-118 | Through any chain of rotations that keeps listing old keys every envelope opens to its plaintext, and a new one opens under the new primary alone |
| Ciphers.LostExactly | internal/security/cipher.go:97-118 | Where ids tell keys apart, an envelope opens exactly under the lists that contain its key |
| Ciphers.PrimaryReadable | internal/security/cipher.go:58-78 | Without that: new envelopes are readable exactly when the last listed key with the primary's id opens them |
| Ciphers.LastStored | internal/security/cipher.go:64-78 | Of listed keys with one id the last is kept |
| Ciphers.NewCipher | internal/security/cipher.go:46-81 | Accepts exactly the lists whose primary and non-blank entries can be read, and stores their keys in order |
| Ciphers.SplitExactly | internal/security/cipher.go:64-66 | The previous keys are what stands between commas: the parts hold none, and joined by commas they are the text again |
| Ciphers.ReadOne | internal/security/cipher.go:64-72 | A blank entry is skipped, any other is read without the white space around it |
| Ciphers.ReadBoth | internal/security/cipher.go:64-78 | A list is read in order, and every entry must be readable |
| Ciphers.Cipher.Encrypt | internal/security/cipher.go:83-95 | The envelope built piece by piece is the one of the specification, under the primary key |
| Ciphers.HeaderRoundTrip | internal/security/cipher.go:106-141 | The printer and parser of the key id undo each other |
| Ciphers.BigEndian | internal/security/cipher.go:134-141 | ... with the most significant byte first |
| Ciphers.EnvelopeLayout | internal/security/cipher.go:83-110 | Version, key id, nonce and sealed text stand where Decrypt reads them |
| Ciphers.OpenErrors | internal/security/cipher.go:97-110 | Which of the header errors is returned when |
| Ciphers.OpenEnvelope | internal/security/cipher.go:97-118 | What becomes of an envelope depends only on the key stored under its id |

## Left out

- Waiting for the order lock or for another transaction's key: the request finds it free or fails; fairness and deadlock are not modelled.
- Isolation levels other than the default, and how PostgreSQL achieves it: only the visibility of committed rows, row guards, unique indexes, row locks and rollback.
- Collisions of the advisory lock's hash: they only serialize more.
- Services.Service.DefaultAccount: takes the account found as an outside choice, because account status changes elsewhere; which link is the default is proved in ProviderLinks and AttachRuns.
- ProviderClient: takes the decoded answer and the marks on a transport error as inputs, because HTTP and JSON decoding are library code; messages of errors are dropped.
- Validation.CreatePaymentInput.Validate: takes the URL check as a function, because internal/security/urlcheck.go rests on DNS.
- Fingerprint.CanonicalInjective: covers texts of Unicode scalar values, because encoding/json replaces invalid UTF-8 by one character; SHA-256 appears only as a collision-free function.
- Slugs.Applications.CreateApplication: takes lower-casing as a function of characters, and the outcome of the other inserts as a choice.
- Ciphers.NewCipher: takes key parsing, key ids, sealing and opening as functions, because AES-GCM, SHA-256 and the key encodings are libraries.
- AttachRuns: begins after the account row is known; creating the same shop twice at once is refused by its unique index and not modelled there.
- ProviderLinks.Connections.AttachProviderAccount: compares secrets directly; a stored secret that cannot be decrypted ends the call earlier.
- Attempt numbers as int32 and varchar lengths: validation keeps texts within their columns, and no order reaches that many attempts.
- The jsonb form of metadata and request_body, provider and operation_type columns, updated_at, and idempotency_expires_at, which no modelled code reads.
- Liveness: requests stranded in created, creating or creation_unknown are not claimed to finish; the worker that would resolve them is not in the repository.
- Webhooks, outbox, refunds, needs_review and adaptive polling: described in the documentation, absent from this code.
- CreateResult.HTTPStatus and RetryAfterSeconds: constants over Pending.
- HTTP handlers, DTOs, logging, metrics, configuration, migrations as such, authentication, API keys, list and page limits.
