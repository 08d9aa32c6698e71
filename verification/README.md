# Takaflow: a verified model of the money paths

Takaflow moves money between wallets on top of PostgreSQL: people send, request, split, schedule and
reverse payments, and every one of them ends in one double-entry movement. This project models those
paths in Dafny and proves what the system promises about them.

## How it is put together

**Two levels.** `Scripts` gives each transaction script of the services as a decision function: given
the rows its locking statements returned and the results of its plain SELECTs, what it does next.
`Engine` interleaves any number of them, one statement at a time, under READ COMMITTED: locks wait and
then see the committed row, an insert waits for an uncommitted rival, plain SELECTs take a fresh
snapshot, `now()` is the start of the transaction, and any transactions can vanish at any moment before
their commit. `Serializability` proves that each commit of this machine is the atomic execution of its
script, and `Deadlock` that waiting never closes a circle. The facts about money are then proved of
atomic steps (`Ledger`, `ExactlyOnce`, `Requests`, `Splits`, `Reversals`, `Schedules`, `Reconcile`),
except the sliding windows, which need the locks themselves (`SlidingWindow`). `System` puts them
together for every reachable state, and `Serial` says what a whole run commits.

**The code's own form.** `Services` has the services as a class whose methods update the tables statement
by statement, claim and complete keys, and roll back to savepoints. `Alone` defines the outcome of a
script that nobody disturbs and proves it is the only outcome its answers allow, `Verdicts` spells it
out, and each method of `Services` is proved to leave exactly that. `Promises` states, over the tables
alone and without the scripts, what each operation owes its caller: when it goes through, what is
different then, and which refusal comes first otherwise; `Outcomes` proves it of every verdict, the
methods of `Services` state it, `Kept` proves it of commits among others, and `Audit` of whole runs.
`Agreement` closes the circle: it says exactly when what a transaction of the machine commits, whatever
raced it, is that outcome on the state it commits to. `Undisturbed` proves that the machine can always
run a command to that outcome when nobody holds its rows, and `Payments` what such a payment does to
everything later ones look at; `Opening` builds runs out of them, for `Overspend`, `Spending`, `OneOff`
and `Exports`. `Drain` adds the scheduler's loops, `Owing` the drain that leaves schedules due,
`SplitBills` the creation of a split, `References` the lookup of a transfer by its public reference,
`Ranking` the first rows of an ordered query.

**Kernels.** `Allocate` is the largest-remainder split with its in-place sort; `Calendar` the stepping of
recurring schedules; `Statement` the keyset export over a growing table, and `Exports` its tables in a
running system; `Csv` its text and a reader for section 2 of RFC 4180; `Canonical` the canonical JSON
that identifies a request and a reader for the grammar of RFC 8259; `Cache` the versioned balance cache;
`Transaction` the retry loop and its hooks.

## Where the code and its comments part

- A commit is not always its script run whole on the state it commits to: the spent total is read before
  the account locks, and settlements and scheduled payments take no advisory lock (`CommitIsVerdictIff`,
  `CommitNeedNotBeVerdict`, and under the shipped configuration `ShippedCapCanBeBroken`).
- A monthly schedule does not always stay on its day of the month (`MonthlyKeepsItsDayIff`).
- An export bounded by a fixed time is not a view of its start: a row carries its transaction's start
  time and can be committed later (`StatementIsTheStartIff`, `LateRowIsWritten`).
- A transfer is not always found by its reference: the reference carries the date of the server's clock, the
  search goes by the transaction's start, and over midnight they part (`FoundIff`, `MidnightCannotBeReversed`).
- `allocateByWeight` refuses a negative total only when all weights are zero; otherwise the shares need
  not sum to it (`SharesSumIff`).
- A drain can stop with schedules still due: never when they fit one batch, and for every larger number
  of them on some database (`DrainSchedules`, `DrainLeavesDue`).
- An error from `withTransaction` can follow a commit, exactly when it is a lost connection
  (`ErrorAfterCommitIff`).
- A user who asked for one payment is not always owed one payment: a one-off schedule that fails for good
  or is skipped ends COMPLETED without having been paid (`OneOffIsOwedIff`, `OneOffCanBeLost`).

## Model

| member | source | states |
|---|---|---|
| `Serial.AloneInTurnIff` | takaflow/backend/src/platform/db/transaction.ts:89-214 | a run, whatever its interleaving, crashes and aborts, commits what its scripts commit when each is run alone on what the ones before it left, if and only if every commit passes its guard on the state it commits to; then the database it leaves is the fold of those scripts over the history |
| `Agreement.CommitIsVerdictIff` | takaflow/backend/src/modules/transfers/ledger.service.ts:126-213 | in every reachable state a commit is exactly its script run alone on the committed state of that moment, if and only if the counts there still pass: the limits for a send, the cap for a settlement or a scheduled payment, the refusal for a run put off or given up, no overdue row of the batch in other hands for the expiry worker; every replay and every other commit always is |
| `Overspend.CommitNeedNotBeVerdict` | takaflow/backend/src/modules/transfers/transfer.service.ts:115-141 | the guard is real: from every reachable state in which nobody holds a row, a send and a settlement of one account would each go through alone, and its balance covers both but the cap does not, a commit is reached that is not its script run alone and passes the daily limit, because a settlement takes no advisory lock |
| `Spending.CapCanBeBroken` | takaflow/backend/src/modules/requests/request.service.ts:192-230 | such a state, and with it such a commit, is reached from the empty system by any course of receipts, payments and a request that the limits and the velocity window allow within a day |
| `Spending.ShippedCapCanBeBroken` | takaflow/backend/src/config/index.ts:39-42 | and so under the configuration the system ships with |
| `Agreement.UncountedCommitIsVerdict` | takaflow/backend/src/modules/transfers/reversal.service.ts:122-198 | reversals, freezes, requests, splits, schedules, registrations, and turns that skip or find their occurrence settled, racing anything, commit exactly what they commit alone |
| `Agreement.OriginalIsCurrent` | takaflow/backend/src/modules/transfers/reversal.service.ts:144-184 | the transfer a reversal undoes is, at its commit, still the one it loaded without a lock |
| `Undisturbed.RunsToItsVerdict` | takaflow/backend/src/platform/db/transaction.ts:89-214 | any command, begun while nobody holds a row it touches, can run to its end with nobody else taking a step, and has then done what it does alone |
| `Serial.RunsSerialise` | takaflow/backend/src/platform/db/transaction.ts:89-171 | every run commits what its committed scripts commit one after another in commit order, each at the instant it committed, on the rows as they are then, with SELECT answers that were true of a version still committed at some time since its transaction began |
| `Serial.StartSerialises` | takaflow/backend/src/platform/db/transaction.ts:89-171 | the same of every run from the start |
| `System.RunKeepsGood` | takaflow/backend/src/platform/db/transaction.ts:89-214 | every run from a good state ends in a good one, and entries, transfers, completed keys, finished requests, settled occurrences and reversals are only ever added to |
| `System.FireKeepsGood` | takaflow/backend/src/platform/db/transaction.ts:89-214 | one statement, commit, abort or crash keeps every invariant at once |
| `System.AtomicKeepsGood` | takaflow/backend/src/modules/transfers/transfer.service.ts:99-221 | every script, run whole against the committed state, keeps the books, the keys, the requests, the splits, the reversals and the schedules in order |
| `System.ReachableIsGood` | takaflow/backend/src/platform/db/transaction.ts:89-214 | every invariant holds in every reachable state |
| `System.MoneyIsConserved` | takaflow/backend/src/modules/admin/reconciliation.service.ts:64-184 | in every reachable state balances sum to zero, no user is overdrawn, and all reconciliation checks pass |
| `System.ReachableIsLive` | takaflow/backend/src/modules/transfers/ledger.service.ts:139-157 | unless every transaction is over, some transaction can take its next step: nothing deadlocks |
| `System.DebitsComeFromActiveAccounts` | takaflow/backend/src/modules/transfers/ledger.service.ts:175-192 | a debit commits only from an account that is ACTIVE and can pay in the state the commit applies to, so a freeze that commits first always wins |
| `System.KeysExecuteOnce` | takaflow/backend/src/platform/idempotency/store.ts:56-126 | all replies under one key are the same reply to the same body, and no key has two transfers |
| `System.WindowsAreBounded` | takaflow/backend/src/modules/transfers/velocity.service.ts:75-106 | at most `maxTransfers` sends of an account start in any closed window, and at most the daily limit of completed sends in any closed 24 hours |
| `System.RefusedKeyIsFree` | takaflow/backend/src/platform/idempotency/store.ts:10-14 | when a transaction that has claimed its key is refused or disappears, nothing committed has changed, nobody holds the key, and the next request under it, with any body, claims it and executes |
| `System.SplitsShowWhatWasPaid` | takaflow/backend/src/modules/splits/split.service.ts:70-88 | whatever happens after a split is created, it shows the same bill, own share and amount asked, which add up; collected is what was paid against its legs and never falls, and collected and outstanding make what was asked |
| `System.CallKeepsGood` | takaflow/backend/src/platform/db/transaction.ts:168-182 | a service call that ends as its verdict says keeps every invariant, committed or rolled back |
| `Outcomes.VerdictIsPromised` | takaflow/backend/src/modules/transfers/transfer.service.ts:75-222 | every operation, alone, does exactly what is promised of it over the tables alone: goes through with stated balances, rows, entries and reply when nothing stands against it, is refused by the first check that fails, and answers a taken key by its stored reply |
| `Kept.PaymentIsPromised` | takaflow/backend/src/modules/requests/request.service.ts:192-282 | whatever raced it, a payment by hand, by request or by schedule commits what its operation promises on the committed state, under limits raised far enough for it: its rows, movement and reply are never out of date, only its counts |
| `Kept.UncountedCommitIsPromised` | takaflow/backend/src/modules/transfers/reversal.service.ts:122-198 | reversals, freezes, requests, splits, schedules and registrations, racing anything, commit what they promise on the committed state |
| `Kept.FittingCommitIsPromised` | takaflow/backend/src/platform/db/transaction.ts:89-214 | so does every commit that fits the state it commits to, under the limits as they are |
| `Kept.RefusedRunIsPromised` | takaflow/backend/src/workers/schedule.worker.ts:217-265 | a run put off or given up claimed a schedule due in the committed state, in time, at the attempt recorded there, and waits that attempt's backoff or fails the occurrence |
| `Audit.SettlementsAreInTime` | takaflow/backend/src/modules/requests/request.repo.ts:111-127 | in any interleaving a settlement commits only for the payer the request names, while it is pending and has not expired, and only from an account that can pay |
| `Audit.SendsAreAllowed` | takaflow/backend/src/modules/transfers/transfer.service.ts:99-221 | in any interleaving a send commits only with everything but its counts as it must be in the committed state |
| `Audit.ReversalsAreAskedFor` | takaflow/backend/src/modules/transfers/reversal.service.ts:144-166 | in every reachable state each REVERSAL was asked for by the sender of the payment it undoes, within the window, and answered with its id |
| `Audit.SchedulesRunAsOrdered` | takaflow/backend/src/modules/schedules/schedule.service.ts:119-127 | in every reachable state each schedule is one that somebody ordered: from them, to their payee, the amount and interval they said, and of the runs ordered for a repeating one exactly those not paid remain |
| `Audit.EndedSchedulesStay` | takaflow/backend/src/modules/schedules/schedule.service.ts:155-160 | over every run a CANCELLED or COMPLETED schedule stays exactly as it is and none of its occurrences is paid again |
| `Audit.ScheduledPaymentsComeFromActive` | takaflow/backend/src/modules/schedules/schedule.repo.ts:156-168 | a scheduled payment commits only for a schedule that is ACTIVE and due in the state it commits to, and pays what that schedule pays: a pause or cancel that commits first always wins |
| `Audit.FrozenPaysNothing` | takaflow/backend/src/modules/accounts/account.service.ts:40-80 | over every run, from a committed freeze until a committed thaw of the same account, the account stays FROZEN and nothing is paid out of it, by any operation |
| `Audit.SpentIsWhatStayedOut` | takaflow/backend/src/modules/transfers/transfer.repo.ts:63-78 | in every reachable state the total the cap is held against is the payments of the three kinds since then that no reversal has undone |
| `Serializability.FireKeepsInv` | takaflow/backend/src/modules/transfers/ledger.service.ts:126-157 | what a transaction has read of a row it holds is the committed row, no two hold the same row, and issued entry ids stay above older ones |
| `Serializability.StepRefines` | takaflow/backend/src/platform/db/transaction.ts:89-171 | each step of the interleaved machine either commits one whole script atomically, on current rows and with the answers it has been given, or changes nothing committed |
| `Serializability.DisjointWrites` | takaflow/backend/src/modules/transfers/ledger.service.ts:126-136 | two open transactions never write the same row |
| `Engine.CommitWritesOwnRows` | takaflow/backend/src/modules/transfers/ledger.service.ts:197-272 | a committing script writes only rows it created, rows it locked, and keys it inserted |
| `Deadlock.PlanAsksForLowest` | takaflow/backend/src/modules/transfers/ledger.service.ts:138-157 | every script locks the rows it needs from the lowest rank up: key, advisory lock, the row acted on, the occurrence, accounts by ascending id |
| `Deadlock.WaitingRises` | takaflow/backend/src/modules/transfers/velocity.service.ts:76-80 | whoever waits, waits for a rank above everything they hold |
| `Deadlock.NoWaitCycle` | takaflow/backend/src/modules/transfers/ledger.service.ts:138-157 | no chain of waiting transactions comes back to its start |
| `Deadlock.SomeHolderCanStep` | takaflow/backend/src/modules/transfers/ledger.service.ts:138-157 | every waiting transaction is waiting, in the end, for one that can go on |
| `Deadlock.FireKeepsOrder` | takaflow/backend/src/modules/requests/request.service.ts:192-230 | every step keeps the locking order, the savepoint rollback included |
| `Ledger.CommitMovesOrKeepsMoney` | takaflow/backend/src/modules/transfers/ledger.service.ts:165-272 | a commit moves no money at all or is one complete movement: an active payer who can afford it, a payee that is not closed, both balances and versions, one transfer and its two entries |
| `Ledger.MovementKeepsBalances` | takaflow/backend/src/modules/transfers/ledger.service.ts:194-213 | a movement keeps every balance equal to the signed sum of the account's entries and no user below zero |
| `Ledger.MovementKeepsRunning` | takaflow/backend/src/modules/transfers/ledger.service.ts:242-272 | `balance_after` of every entry is the sum of the account's entries up to it in id order, and ids rise within an account |
| `Ledger.MovementKeepsPairs` | takaflow/backend/src/modules/transfers/ledger.service.ts:228-272 | every transfer keeps exactly one debit of the payer and one credit of the payee, of its amount and its time |
| `Ledger.AtomicKeepsBooks` | takaflow/backend/src/modules/transfers/ledger.service.ts:159-272 | every script keeps the books, and adds to the entries and the log without changing them |
| `ExactlyOnce.KeyedCommit` | takaflow/backend/src/platform/idempotency/store.ts:56-126 | a keyed script either replays the stored reply and changes nothing, or inserts its key completed with the reply it returns, in the same commit as the movement |
| `ExactlyOnce.AtomicKeepsKeys` | takaflow/backend/src/platform/idempotency/store.ts:8-26 | committed keys are always completed, never change, and each has at most one movement |
| `ExactlyOnce.RepliesAgree` | takaflow/backend/src/platform/idempotency/store.ts:99-103 | two replies under one key have the same status and body and answered the same body |
| `ExactlyOnce.RetryReplays` | takaflow/backend/src/platform/idempotency/store.ts:75-107 | a retry that finds the key replays its reply, or is a mismatch exactly when the body differs; a retry that does not executes cleanly |
| `SlidingWindow.FireKeepsLimits` | takaflow/backend/src/modules/transfers/velocity.service.ts:75-106 | every step keeps both bounds, although `created_at` is a start time and does not follow lock order |
| `SlidingWindow.CommitKeepsWindows` | takaflow/backend/src/modules/transfers/transfer.service.ts:115-141 | the send that commits last in a window counted all the others under the advisory lock |
| `SlidingWindow.AdvisoryIsExclusive` | takaflow/backend/src/modules/transfers/velocity.service.ts:78-80 | two senders with the same lock key are never both past it |
| `Requests.CommitWritesRequests` | takaflow/backend/src/modules/requests/request.repo.ts:111-188 | a commit accepts one pending request with its own payment, ends pending ones, or creates new ones |
| `Requests.AtomicProgressesRequests` | takaflow/backend/src/modules/requests/request.repo.ts:111-188 | finished requests never change, and who asks whom for how much never does |
| `Requests.AtomicKeepsRequests` | takaflow/backend/src/modules/requests/request.service.ts:192-282 | a request is ACCEPTED exactly when it has its own settlement transfer of its amount from payer to requester |
| `Splits.AtomicKeepsSplits` | takaflow/backend/src/modules/splits/split.service.ts:70-88 | every script keeps what a split shows as collected equal to what was paid against its legs, the own share and the amount asked as they are, and never lowers what is collected |
| `Splits.CreatedSplitShows` | takaflow/backend/src/modules/splits/split.service.ts:94-217 | a new split shows the whole bill, nothing collected, and the first share as the creator's |
| `Reversals.CommitReverses` | takaflow/backend/src/modules/transfers/reversal.service.ts:134-198 | a commit reverses nothing, or flips one completed transfer and moves the same amount back |
| `Reversals.AtomicKeepsReversals` | takaflow/backend/src/modules/transfers/reversal.service.ts:174-198 | every script keeps transfers REVERSED exactly when they are compensated |
| `Reversals.ReversedIffCompensated` | takaflow/backend/src/modules/transfers/reversal.service.ts:151-198 | a transfer is REVERSED exactly when a REVERSAL points to it, with accounts swapped and the amount equal; mints and reversals never are |
| `Reversals.ReversalIsUnique` | takaflow/backend/src/modules/transfers/reversal.service.ts:168-184 | no transfer is reversed twice, however many attempts race |
| `Reversals.UnaffordableReversalFails` | takaflow/backend/src/modules/transfers/reversal.service.ts:186-198 | when the recipient has spent the money nothing changes |
| `Schedules.CommitWritesSchedules` | takaflow/backend/src/workers/schedule.worker.ts:95-270 | a commit leaves schedules alone, creates one, redirects one, or takes one turn of an active one at the occurrence that is due |
| `Schedules.AtomicKeepsSchedules` | takaflow/backend/src/modules/schedules/schedule.repo.ts:183-267 | runs paid and runs remaining make the runs ordered, for a repeating schedule; COMPLETED means none remain, attempts stay within bounds, and payments and PAID occurrences match one to one |
| `Schedules.OneOffTurnIff` | takaflow/backend/src/modules/schedules/schedule.repo.ts:219-247 | a turn of a one-off schedule leaves the one run that was ordered paid or still to come exactly when it pays or puts it off; any other turn loses it |
| `OneOff.OneOffIsOwedIff` | takaflow/backend/src/modules/schedules/schedule.repo.ts:225-247 | "five payments, not five attempts" holds of a due one-off exactly when its occurrence is not settled, the run is within the grace period, and the payment goes out or is refused for a passing reason with attempts left; otherwise it ends COMPLETED and unpaid |
| `OneOff.OneOffCanBeLost` | takaflow/backend/src/workers/schedule.worker.ts:125-150 | under every configuration there is a reachable state with a one-off ordered in good time, COMPLETED, without a run left, and never paid |
| `Schedules.AtomicProgressesSchedules` | takaflow/backend/src/modules/schedules/schedule.repo.ts:175-197 | settled occurrences never change |
| `Schedules.PaymentsAndOccurrencesPair` | takaflow/backend/src/workers/schedule.worker.ts:10-17 | two occurrences record the same transfer only when they are the same occurrence |
| `Schedules.SettledOccurrenceIsNotPaid` | takaflow/backend/src/workers/schedule.worker.ts:112-123 | a schedule put back on an instant already settled, by an operator or a crash, pays nothing and moves on |
| `Calendar.NextRunAdvances` | takaflow/backend/src/modules/schedules/schedule.repo.ts:33-37 | every step moves a recurring schedule forward, by a day, by a week, or by 28 to 31 days, at the same time of day |
| `Calendar.PlusMonthAdvances` | takaflow/backend/src/modules/schedules/schedule.repo.ts:26-31 | a month later is the same day of the next month or its last day, 28 to 31 days later |
| `Calendar.ChainVisitsEveryMonth` | takaflow/backend/src/modules/schedules/schedule.repo.ts:244-252 | a monthly chain visits each calendar month once, in order, and its day never rises |
| `Calendar.MonthlyKeepsItsDayIff` | takaflow/backend/src/modules/schedules/schedule.repo.ts:222-224 | the promise that a monthly transfer stays on its day holds for ever exactly when the day is at most 28 |
| `Calendar.MonthlyDriftsFromTheEndOfJanuary` | takaflow/backend/src/modules/schedules/schedule.repo.ts:222-224 | 31 January 2026 comes round on 28 March |
| `Reconcile.UnflaggedIffPair` | takaflow/backend/src/modules/admin/reconciliation.service.ts:107-133 | the grouped HAVING test finds no fault exactly with one DEBIT and one CREDIT of the transfer's amount |
| `Reconcile.ByAccount` | takaflow/backend/src/modules/admin/reconciliation.service.ts:87-101 | summing entries account by account is summing them all |
| `Reconcile.ByTransfer` | takaflow/backend/src/modules/admin/reconciliation.service.ts:113-133 | summing entries transfer by transfer is summing them all, when none is an orphan |
| `Reconcile.ChecksImplyConservation` | takaflow/backend/src/modules/admin/reconciliation.service.ts:64-161 | matching balances, complete double entries and no orphans together imply conservation of money |
| `Reconcile.BooksReconcile` | takaflow/backend/src/modules/admin/reconciliation.service.ts:57-190 | a state with the books in order passes all four checks |
| `References.FoundIff` | takaflow/backend/src/modules/transfers/reversal.service.ts:69-98 | a transfer is found by its own reference exactly when its transaction began on the day the reference carries, and otherwise nothing is found |
| `References.FoundOnItsDayIff` | takaflow/backend/src/modules/transfers/ledger.service.ts:66-104 | in this century: exactly when it began on the day that the clock showed when it was posted |
| `References.MidnightCannotBeReversed` | takaflow/backend/src/modules/transfers/reversal.service.ts:146-149 | a transfer that began before midnight and was posted after it is not found to reverse, whoever asks and however soon |
| `References.DayReadsBackIff` | takaflow/backend/src/modules/transfers/ledger.service.ts:77-104 | the date in a reference reads back as the day it was made from exactly for the years 2000 to 2099 |
| `References.Suffix` | takaflow/backend/src/modules/transfers/ledger.service.ts:81-90 | the loop of shifts and masks writes the 40 random bits as eight base-32 digits |
| `References.SuffixLosesNothing` | takaflow/backend/src/modules/transfers/ledger.service.ts:73-74 | two suffixes are equal only if all forty bits are |
| `Alone.AloneEnds` | takaflow/backend/src/modules/transfers/transfer.service.ts:99-221 | a script run alone never waits: it commits or fails |
| `Alone.AloneIsAtomic` | takaflow/backend/src/platform/db/transaction.ts:168-171 | a script that commits when run alone is an atomic step of the concurrent specification |
| `Alone.OneOutcome` | takaflow/backend/src/modules/transfers/transfer.service.ts:99-221 | whatever a transaction learns from one committed state, in any order and however little, its outcome is the same |
| `Payments.SendGoesThroughIff` | takaflow/backend/src/modules/transfers/transfer.service.ts:75-222 | under a new key a send alone goes through if and only if it passes every check |
| `Payments.SendCommits` | takaflow/backend/src/modules/transfers/transfer.service.ts:99-221 | and then two balances, one key, one transfer and its two entries change, and every count over every window grows by exactly this payment |
| `Payments.SettlementGoesThroughIff` | takaflow/backend/src/modules/requests/request.service.ts:192-230 | under a new key accepting alone goes through if and only if the request is the payer's, pending and in time, and its payment passes every check |
| `Payments.SettlementCommits` | takaflow/backend/src/modules/requests/request.service.ts:192-282 | and then balances, key, request and every count change by exactly this payment |
| `Payments.ReversalGoesThroughIff` | takaflow/backend/src/modules/transfers/reversal.service.ts:144-198 | under a new key a reversal alone goes through if and only if the log holds such a payment of the caller's: a real one, not undone, young enough, and affordable for its receiver |
| `Verdicts.PostingIsOrdered` | takaflow/backend/src/modules/transfers/ledger.service.ts:139-157 | locking in ascending order and reporting the first row missing decides as the unordered pair does |
| `Services.Session.Finish` | takaflow/backend/src/platform/db/transaction.ts:168-191 | a call ends committed with its reply or rolled back with its error, never between |
| `Services.Session.LockAccount` | takaflow/backend/src/modules/transfers/ledger.service.ts:126-136 | the row, or nothing |
| `Services.Session.LockAccountPair` | takaflow/backend/src/modules/transfers/ledger.service.ts:139-157 | both rows the right way round, or why not |
| `Services.Session.PostDoubleEntry` | takaflow/backend/src/modules/transfers/ledger.service.ts:165-307 | the updates and inserts, statement by statement, leave exactly the specified movement; a refusal leaves the tables untouched |
| `Services.Session.ClaimIdempotencyKey` | takaflow/backend/src/platform/idempotency/store.ts:56-108 | inserts the key IN_PROGRESS or reports what the existing row means |
| `Services.Session.CompleteIdempotencyKey` | takaflow/backend/src/platform/idempotency/store.ts:111-126 | completes the claimed key and nothing else |
| `Services.Session.SendMoney` | takaflow/backend/src/modules/transfers/transfer.service.ts:75-222 | goes through exactly when the amount, the velocity limit, the payee, the cap and the ledger allow it, and then leaves the two balances, the transfer, its entries, the key and the reply as stated; else the first that does not decides the error and nothing changes |
| `Services.Session.LockSettleableRequest` | takaflow/backend/src/modules/requests/request.repo.ts:111-127 | the row exactly when this payer can still settle it |
| `Services.Session.MarkAccepted` | takaflow/backend/src/modules/requests/request.repo.ts:129-144 | changes a pending request and says so, or nothing |
| `Services.Session.AcceptRequest` | takaflow/backend/src/modules/requests/request.service.ts:180-283 | pays a request exactly when it is the caller's to pay, pending, not expired, under the cap and the ledger allows it, and marks it with its payment; else the first that fails decides the error and nothing changes |
| `Services.Session.TerminateRequest` | takaflow/backend/src/modules/requests/request.service.ts:308-352 | only the payer may decline and only the requester cancel, while it is pending; repeating it succeeds, a stranger is told not found, any other state is invalid |
| `Services.Session.FlipToReversed` | takaflow/backend/src/modules/transfers/reversal.service.ts:174-184 | flips a completed transfer and says so, or nothing |
| `Services.Session.ReverseTransfer` | takaflow/backend/src/modules/transfers/reversal.service.ts:122-198 | undoes a payment exactly for its sender, once, within the window, when its receiver can pay it back; status, movement, key and reply as stated, else the first check that fails decides the error and nothing changes |
| `References.ReverseByReference` | takaflow/backend/src/modules/transfers/reversal.service.ts:69-146 | a reversal by reference ends as the reversal of the transfer its lookup finds; when it finds nothing, and the key is new, it is refused and nothing changes |
| `Services.Session.SetOwnFreeze` | takaflow/backend/src/modules/accounts/account.service.ts:30-80 | leaves the account in the state asked for, with its balance and one version more, or as it is when it is so already; a closed account and no account are refused |
| `Services.Session.ClaimDueSchedule` | takaflow/backend/src/modules/schedules/schedule.repo.ts:156-168 | the row exactly when it is active, due and not backing off |
| `Services.Session.ClaimOccurrence` | takaflow/backend/src/modules/schedules/schedule.repo.ts:183-197 | first attempt, next attempt, or nothing for a settled occurrence |
| `Services.Session.SettleOccurrence` | takaflow/backend/src/modules/schedules/schedule.repo.ts:199-217 | sets outcome and transfer and keeps the attempts |
| `Services.Session.AdvanceSchedule` | takaflow/backend/src/modules/schedules/schedule.repo.ts:229-267 | the CASE expressions compute the specified next state |
| `Services.Session.DeferSchedule` | takaflow/backend/src/modules/schedules/schedule.repo.ts:277-284 | sets the backoff and keeps the occurrence's identity |
| `Services.Session.Pay` | takaflow/backend/src/workers/schedule.worker.ts:277-299 | pays, or reports why nobody could pay from this state |
| `Services.Session.SettleRefusal` | takaflow/backend/src/workers/schedule.worker.ts:217-265 | after the savepoint rollback: deferred while attempts remain and the reason is transient, else failed |
| `Services.Session.AttemptPayment` | takaflow/backend/src/workers/schedule.worker.ts:160-266 | the payment with its occurrence and schedule, or only the record of the refusal |
| `Services.Session.RunSchedule` | takaflow/backend/src/workers/schedule.worker.ts:95-270 | one tick leaves exactly what is promised of it: not claimed, duplicate, skipped when late, paid with its occurrence and next run, put off by a doubling backoff for a passing refusal with attempts left, else failed |
| `Services.Session.CreateRequest` | takaflow/backend/src/modules/requests/request.service.ts:82-165 | writes exactly the pending request that was asked for and the completed key, or is refused by the first check that fails |
| `Services.Session.CreateSchedule` | takaflow/backend/src/modules/schedules/schedule.service.ts:71-149 | writes exactly the schedule that was ordered, with one run for a one-off and else the runs asked for, and the completed key, or is refused by the first check that fails |
| `Services.Session.TransitionSchedule` | takaflow/backend/src/modules/schedules/schedule.service.ts:162-200 | for the owner, from a legal phase, sets the phase and nothing else, except that resuming starts from now at the earliest without a backoff; the same phase succeeds and changes nothing, anything else is refused |
| `Services.Session.BringForward` | takaflow/backend/src/modules/admin/admin.routes.ts:198-210 | makes an active schedule due since a second ago without a backoff, and changes nothing else |
| `Services.Session.Register` | takaflow/backend/src/modules/auth/auth.service.ts:76-95 | the new account with exactly the bonus, and its movement out of the stripe, or nothing |
| `Services.Session.ExpireDue` | takaflow/backend/src/modules/requests/request.repo.ts:172-188 | picks the first requests that are overdue, in the order they expired and up to the limit, and expires exactly those: what stays overdue is what was not picked |
| `Verdicts.BatchExpires` | takaflow/backend/src/modules/requests/request.repo.ts:173-188 | expiring a batch one row after another is expiring all its overdue rows at once, duplicates included |
| `Verdicts.RunEnds` | takaflow/backend/src/workers/schedule.worker.ts:95-270 | the verdict of a tick, spelt out, is the serial outcome of the scheduler's script |
| `Drain.RunMoves` | takaflow/backend/src/workers/schedule.worker.ts:95-270 | a claimed run takes one step that was due, or defers and is due no more; other schedules are untouched, and the log grows exactly when it pays |
| `Drain.FindDueScheduleIds` | takaflow/backend/src/modules/schedules/schedule.repo.ts:136-148 | distinct due schedules, longest overdue first, as many as there are up to the limit |
| `Drain.RunDueSchedules` | takaflow/backend/src/workers/schedule.worker.ts:63-85 | claims the whole batch, its counters are the outcomes its runs answered with, pays what it counts, and lowers the backlog by what moved |
| `Drain.DrainSchedules` | takaflow/backend/src/workers/schedule.worker.ts:305-325 | stops within the steps due at the start plus one, whatever `maxTicks` is, keeps every invariant, and totals the outcomes of all its runs; nothing stays due if everything due at the start fits one batch; when all of it can only be put off, exactly what does not fit one batch stays due |
| `Drain.PutsOff` | takaflow/backend/src/workers/schedule.worker.ts:217-236 | among schedules whose owners cannot pay now and may be tried again, a run defers its own and leaves the others so |
| `Owing.DrainLeavesDue` | takaflow/backend/src/workers/schedule.worker.ts:301-325 | for every batch size and every number of due schedules, under every configuration that allows the amount, there is a database, made by registering two people, spending the bonus and ordering payments it no longer covers, on which a drain of any length leaves due exactly those beyond one batch: fitting one batch is the exact bound |
| `Allocate.EvenSplitIsExact` | takaflow/backend/src/shared/allocate.ts:21-34 | shares sum to the total and fall from first to last by at most one |
| `Allocate.SortShares` | takaflow/backend/src/shared/allocate.ts:59-61 | the in-place sort orders by remainder, then position, and keeps every element |
| `Allocate.Distribute` | takaflow/backend/src/shared/allocate.ts:63-67 | the loop hands out the whole leftover, one each, to the first in order |
| `Allocate.LeftoverFits` | takaflow/backend/src/shared/allocate.ts:57-67 | the leftover is never more than there are people |
| `Allocate.AllocateByWeight` | takaflow/backend/src/shared/allocate.ts:42-70 | an empty list and a negative weight are refused, zero weights split evenly, and otherwise the result is the largest-remainder allocation |
| `Allocate.SharesSumIff` | takaflow/backend/src/shared/allocate.ts:39-40 | shares sum to the total exactly when the total is not negative or every quota is whole: the code refuses a negative total only when all weights are zero |
| `Allocate.NegativeTotalLosesItsPoisha` | takaflow/backend/src/shared/allocate.ts:42-52 | -1 between two equal weights sums to 0 |
| `Allocate.ZeroWeightGetsNothing` | takaflow/backend/src/shared/allocate.ts:42-70 | weight zero pays nothing, whatever is left over |
| `Allocate.LargerWeightNeverLess` | takaflow/backend/src/shared/allocate.ts:51-67 | a larger weight never gets less, and of equal weights the earlier wins the odd poisha |
| `Allocate.EqualWeightsSplitEvenly` | takaflow/backend/src/shared/allocate.ts:21-70 | equal positive weights give the even split |
| `Allocate.AllocationIsReproducible` | takaflow/backend/src/shared/allocate.ts:11-14 | two allocations of the same bill are the same |
| `SplitBills.AllocateShares` | takaflow/backend/src/modules/splits/split.service.ts:219-240 | by weight, the creator's first, when every participant has one, else evenly |
| `SplitBills.SharesAreTheBill` | takaflow/backend/src/modules/splits/split.service.ts:219-240 | one share for everybody, summing to any bill that is not negative |
| `SplitBills.ResolvePayers` | takaflow/backend/src/modules/splits/split.service.ts:140-149 | the first participant who cannot be asked decides the error |
| `SplitBills.InsertLegs` | takaflow/backend/src/modules/splits/split.service.ts:151-194 | writes exactly the split and one pending request per participant, share by share |
| `SplitBills.CreateSplit` | takaflow/backend/src/modules/splits/split.service.ts:94-217 | allocates the bill and writes exactly the split, a pending request for everybody else's share and the key, or is refused by the first check that fails and nothing changes |
| `Statement.PageHolds` | takaflow/backend/src/modules/transfers/history.repo.ts:99-135 | a page is in descending order, holds only matching rows below the cursor, and leaves out only older ones |
| `Statement.LedgerIsKeyed` | takaflow/backend/src/modules/transfers/history.repo.ts:127-133 | the sort key of an account's entries is unique in every state with the books in order |
| `Statement.StatementChunks` | takaflow/backend/src/modules/transfers/statement.service.ts:87-117 | on a table that grows between pages the loop ends, each page goes on after the last row of the full page before it and only the last one is short, and it has written in descending order exactly the matching rows some page could see |
| `Statement.NothingSkippedOrRepeated` | takaflow/backend/src/modules/transfers/statement.service.ts:87-117 | every matching row that was there at the start is written exactly once, and no row twice |
| `Statement.OnlyWhatWasAskedFor` | takaflow/backend/src/modules/transfers/history.repo.ts:99-135 | only rows of the account, in the direction, from the first moment up to but not at the last, and between both amounts are written, and of those that were there at the start all |
| `Statement.StillTableIsListed` | takaflow/backend/src/modules/transfers/statement.service.ts:87-117 | on a table nobody writes to the pages are the filtered, sorted list |
| `Statement.StatementIsTheStartIff` | takaflow/backend/src/modules/transfers/statement.service.ts:13-16 | the statement is the promised view of the table at its start exactly when no matching row is added, by the time a page is read, that is older than the last of the full pages of the start before it |
| `Statement.FixedBoundHolds` | takaflow/backend/src/modules/transfers/statement.service.ts:13-16 | it is, whatever the page size, when everything appended later lies past the upper bound |
| `Exports.LateRowIsWritten` | takaflow/backend/src/modules/transfers/statement.service.ts:83-117 | for every page size and filters, under every configuration in which a new customer can pay the amount, there is a run of the system during which every export writes a row that was not there at its start: a payment that began before a page of others and committed after the first page was read |
| `Exports.TablesGrow` | takaflow/backend/src/modules/transfers/history.repo.ts:99-135 | whatever runs between the pages of an export, the ledgers they read only grow and their sort key is unique, so that what is proved of exports holds of every export of a running system |
| `Exports.WatchedExportIff` | takaflow/backend/src/modules/transfers/statement.service.ts:13-16 | an export of a running system is the table at its start exactly when no late row is there in time |
| `Csv.WriteChunk` | takaflow/backend/src/modules/transfers/statement.service.ts:108-110 | the chunk is its rows, one after another |
| `Csv.FieldReadsBack` | takaflow/backend/src/modules/transfers/statement.service.ts:47-54 | a reader for section 2 of RFC 4180 gets each field back but for the guard |
| `Csv.RecordReadsBack` | takaflow/backend/src/modules/transfers/statement.service.ts:56-70 | and each record |
| `Csv.StatementReadsBack` | takaflow/backend/src/modules/transfers/statement.service.ts:47-70 | and the whole text: the same rows, ten fields each, for all strings |
| `Csv.GuardConfusesIff` | takaflow/backend/src/modules/transfers/statement.service.ts:50-51 | two texts read back alike exactly when equal, or one is the other, a formula, with a quote in front |
| `Canonical.CanonicalReadsBack` | takaflow/backend/src/platform/idempotency/store.ts:46-54 | a reader for the JSON grammar reads the canonical text as the value with its keys sorted |
| `Canonical.CanonicalIff` | takaflow/backend/src/platform/idempotency/store.ts:46-54 | canonical texts are equal exactly when the values are equal up to key order |
| `Canonical.RequestIff` | takaflow/backend/src/platform/idempotency/store.ts:37-44 | the hashed text determines endpoint and body, when endpoints have no line break |
| `Canonical.CharsReadBack` | takaflow/backend/src/platform/idempotency/store.ts:47-52 | every string, lone surrogates included, is quoted without loss |
| `Canonical.CanonicalIsWellFormed` | takaflow/backend/src/platform/idempotency/store.ts:42-54 | the hashed text has no lone surrogate, so its UTF-8 bytes lose nothing |
| `Canonical.HugeLooksLikeNull` | takaflow/backend/src/platform/idempotency/store.ts:47 | a number too large for a double is the same request as null |
| `Cache.BalanceCache.WriteBalance` | takaflow/backend/src/platform/cache/balance.cache.ts:31-75 | stored exactly when nothing as new is cached |
| `Cache.BalanceCache.InvalidateBalance` | takaflow/backend/src/platform/cache/balance.cache.ts:83-87 | removes one account and nothing else |
| `Cache.BalanceCache.AnswerBalance` | takaflow/backend/src/modules/accounts/accounts.routes.ts:35-44 | answers with the newer of row and cache, and publishes the row when it is the newer |
| `Cache.CommitVersions` | takaflow/backend/src/modules/transfers/ledger.service.ts:197-213 | a commit leaves an account alone or gives it its next version |
| `Cache.HooksAreTrue` | takaflow/backend/src/modules/transfers/ledger.service.ts:288-293 | the after-commit hook of a movement publishes both balances as committed, with their versions, and no other commit publishes anything |
| `Cache.MoveKeepsCoherent` | takaflow/backend/src/platform/cache/balance.cache.ts:4-15 | statements and commits of the machine, hooks in any order, read-backs from replicas, losses and evictions keep every cached value true of the ledger |
| `Cache.CacheIsTrue` | takaflow/backend/src/platform/cache/balance.cache.ts:14-15 | wherever a run of the machine and its caches has got to from the start, a cached balance is the account's balance at the cached version, never ahead of the committed row, and the row's own where the versions agree |
| `Cache.VersionsNeverFall` | takaflow/backend/src/platform/cache/balance.cache.ts:9-12 | until its entry is evicted a cached version never falls |
| `Cache.AnswerIsNeverOlder` | takaflow/backend/src/modules/accounts/accounts.routes.ts:23-44 | a row read at one moment and answered later, as from a replica that is behind: the answer is a true balance at a version no older than the row nor than what is cached |
| `Transaction.Boundary.RunHooks` | takaflow/backend/src/platform/db/transaction.ts:174-180 | each hook runs in order; what one throws is caught and logged, and the next one runs |
| `Transaction.Boundary.WithTransaction` | takaflow/backend/src/platform/db/transaction.ts:104-214 | tries again only after a conflict and while attempts remain, and returns what the last attempt says |
| `Transaction.AppliedAtMostOnce` | takaflow/backend/src/platform/db/transaction.ts:12-15 | at most one attempt is applied; hooks run only after an acknowledged commit and only that attempt's; success means applied |
| `Transaction.FailingHooksStopNothing` | takaflow/backend/src/platform/db/transaction.ts:172-180 | every hook of the attempt that succeeded runs exactly once and in order, whichever of them throw |
| `Transaction.ErrorAfterCommitIff` | takaflow/backend/src/platform/db/transaction.ts:168-191 | an error can reach the caller of a transaction that was applied if and only if it is a lost connection, and a lost connection can also mean that it was not |
| `Transaction.OtherErrorsMeanNothing` | takaflow/backend/src/platform/db/transaction.ts:183-209 | any other error means that nothing was applied and no hook ran |
| `Transaction.TriedAgainIff` | takaflow/backend/src/platform/db/transaction.ts:73-78 | an attempt is followed by another exactly when the server reported 40001 or 40P01 and attempts are left |

The scripts themselves are functions without contracts of their own; the members above are about them.
`PlanSend` and its siblings in `Scripts` follow transfer.service.ts, request.service.ts,
reversal.service.ts, split.service.ts, schedule.service.ts, schedule.worker.ts, auth.service.ts,
account.service.ts and the operator endpoint in admin.routes.ts.

## Left out

- Routes, schemas, authentication, PIN checks, the outbox, audit rows, metrics, logging and the user interface.
- Read-your-writes routing: what its header says is not what its code does, and nothing here relies on it.
- Ids: a created row is named by the transaction that created it, in place of a random UUID; a user and the
  user's one account share an id; a transfer's reference is its id.
- Plain lookups of people (payee by phone, account of a user) are inputs of a command, not queries.
- The writes of one transaction are one step that nobody else can see, taken when its last row is locked;
  their order matters to nobody else, because nobody else can read them. `Services` has them one by one.
- A lock timeout, a statement timeout, a passed deadline and a serialization failure are all `Abort`; so is
  the arithmetic overflow of a 64-bit column, amounts being unbounded integers here.
- `FOR UPDATE` on a request or schedule also names the row's condition; here the row is locked first and the
  condition is looked at on the locked row, which decides the same way but can hold a row a moment longer.
- In the machine a batch of the expiry worker is any list of requests; `Services` picks it as the query does.
- WindowsAreBounded: the daily cap is claimed for sends only, because settlements and scheduled payments read
  the spent total before they hold any lock; the velocity limit likewise is not enforced on settlements, which it counts.
  The policy is fixed for a run; changing it while sends are under way is not modelled.
- RunsSerialise: the rows are those of the moment of the commit, the SELECT answers may be older, as READ COMMITTED
  has them; `AloneInTurnIff` says when that makes no difference.
- CommitIsVerdictIff: that a guard holds is stated of the state committed to, not of the whole run before it.
- RefusedKeyIsFree: error texts and details are not modelled, only error codes.
- DrainSchedules: the clock stands still, and nobody else runs; a drain among others is any run of the machine.
- AloneIsAtomic: a payment refused at its savepoint gives up its account locks and goes on without them, as the
  script does.
- ReverseTransfer: loads the original by id; `ReverseByReference` looks the id up first, which nobody can tell
  from looking it up after the key is claimed when nobody else runs.
- FoundIff: the table's rows carry their references; which of two equal references a lookup finds is left open.
- SendMoney and the other methods of `Services` run with nobody else about; `Agreement` says when that is what
  happens among others.
- WithTransaction: which error an attempt ends with is given from outside; the delay between attempts is not modelled.
- AppliedAtMostOnce: assumes that the server acknowledges a COMMIT only when it is applied, and answers it with an
  error only when it is not; all else the client can hear of a COMMIT is that the connection is gone.
- StatementChunks: rows carry what the ledger entry carries; names and notes are joined in later, filters by type or
  counterparty are not modelled, and a page reads one snapshot.
- RefusedRunIsPromised: the refusal itself may be out of date by the time the run commits; `CommitIsVerdictIff` says when.
- WriteChunk: the byte-order mark and the header line are not part of the text; dates and amounts are rendered outside.
- CanonicalIff: a number is known by the token it prints as, taken as faithful; infinite numbers print as null and
  count as null.
- RequestIff: SHA-256 is taken as injective, so that a digest stands for the text.
- VersionsNeverFall: a value expiring after 30 seconds is an eviction; versions are exact integers in the script too.
- FindDueScheduleIds: equally overdue schedules come in any order.
- Time zones: the calendar is read in UTC, so a day is 24 hours.
- Histories, lists, statistics, notifications and the cursor's text encoding: they only read or render.
