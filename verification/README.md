# Verified model of the shop's account, stock, login, job and cache services

The system sells telecom packages through external providers. This project models the parts of it
whose correctness spans many calls, and proves what those calls keep, undo or promise together.

**Customer accounts** (`Receivables`, `SettlementPass`, `Customer*`). A customer has a signed ledger, a
cached balance, payments, payment submissions and sales on account. A settlement pass marks pending
sales paid, oldest first, as far as the payments reach beyond what is reserved for other debt. `Staff`
and `StaffEffects` hold the employee books that mirror payments an employee keeps in hand. Amounts are
integer cents.

**Logins and charges** (`Login*`, `ProviderCalls`). Many workers share one provider
session. A Redis lock with a timeout, a generation counter and a cool-down decide who logs in. The model
interleaves single Redis calls of any number of workers. A charge runs on top of it.

**SIM stock** (`ProductLines`, `SimStock`, `Stock*`). Pools of SIMs per product line and customer, a movement
log whose entries can be deleted afterwards, tracked cards, and the SIM a sale consumes.

**Jobs, cache and limiter** (`Jobs`, `JobRuns`, `JobCauses`, `KpiCache`, `RateLimit`). Guarded status updates
raced by workers, redeliveries and a reaper; dashboard values under a version key behind a circuit
breaker; a fixed-window hit counter.

Each service call that runs in one database transaction is one step; a call that raises changes
nothing. Two forms of every service stand side by side: a class with the source's mutable rows and
loops, and a function from the tables before to the tables after. Each method is proved to do what
its function says. The lemmas over whole runs are about the functions, and so are those of the
`*Effects` modules, which say when each service is refused and what it writes, in terms of its
arguments and the tables before it. Redis protocols are state machines whose steps are the single
calls.

## What the code does not do

These came out of the proofs. The code is modelled as it is.

- Deleting a payment can leave paid sales that the other payments do not cover: a sale of 150 settled by
  the second of two payments of 100 stays paid when the first is deleted
  (`CustomerLimits.DeletionCanUncoverPaidSales`). It happens exactly when the sales the payment did not
  settle exceed the other payments (`CustomerTheorems.DeletionKeepsPaidCoveredIff`).
- With non-negative prices the pass is a fixpoint from every state (`SettlementPass.PassIsAFixpoint`). The
  services leave checking a price to their callers: the sale form (sales/forms.py:86-91, used in
  sales/views/employee.py:237 and sales/charging.py:213) and the edit forms do. Direct service calls with a
  negative price, on a customer already written off, whom the sale flow would not pick
  (customers/services.py:83), can end where the pass still settles more
  (`CustomerLimits.NegativePriceMovesTheFixpoint`); exactly when is `SettlementPass.SecondRunSettlesMoreIff`.
- A free sale is not settled when nothing else is left over, because the pass returns early on zero
  headroom (`CustomerLimits.FreeSaleStaysPending`). It is settled exactly when the pass has headroom and the
  queue before it fits (`SettlementPass.PassSettlesIff`), and such sales are the only exception to the covered
  prefix (`CustomerQueues.PaidSalesAreTheCoveredPrefix`).
- The write-off is documented to land the balance at zero. A customer in credit beyond the pending
  sales keeps a negative balance (`CustomerLimits.WriteOffClearsTheDebt`).
- Undoing a sale payment credits the sale's current recipient. The employee books stay balanced
  exactly when every employee gets back what the rows took (`Staff.ReverseBalancedExactly`): for rows of one
  employee, when that employee is credited, or the rows total zero (`Staff.ReverseBalancedIff`).
- A normal return of the login routine means a login was counted after the worker read the generation.
  The login itself may have completed just before that reading (`LoginTheorems.LoginMayPrecedeTheReading`).
- A login whose generation increment never happens, because its worker dies first or the Redis call raises,
  makes the next worker log in again from the same generation (`LoginTheorems.LostLoginIsRepeated`). Two logins
  start from one generation exactly when neither the first nor any between was counted
  (`LoginTheorems.OneLoginPerGeneration`), and only those two events lose a count
  (`LoginTheorems.OnlyAFailedCountLosesALogin`).
- `reached_provider` is documented as false when no request reached the provider. The code also clears it
  when the provider answered with a refusal, and sets it on any `TransientError` of the adapter. When it is
  right, exactly: `ProviderCalls.ReachedProviderIsRightIff`.
- When enqueueing raises although the task was delivered, the enqueuer ignores that its update lost and
  notifies a second time, with another result (`JobRuns.LostEnqueueNotifiesTwice`).
- Undoing a return restores a card's owner exactly when the card was with the customer named in the
  return, which the return does not check (`StockUndo.UndoReturnRestoresCardsIff`).
- Undoing a return and then the allocation before it leaves each card that went there and back with
  the customer, though all quantities are right (`StockUndo.TwoUndosStrandTheCards`). When undoing a whole
  run does restore the cards, exactly: `StockCards.UndoneRunRestoresCardsIff`.
- After an older movement has been deleted, the newest one may no longer be deletable
  (`StockUndo.DeletionCanBlockOlderUndo`); exactly when is `StockUndo.UndoNewestIff`.

## Assumptions

- A login together with the Redis calls around it ends before its lock times out (`LOGIN_LOCK_TIMEOUT_SECONDS`,
  providers/sessions.py:21-22), unless its worker dies. Any Redis call made under the lock may raise; a call
  that took effect although its answer was lost is its step followed by a failure of the next one.
- An adapter keeps the contract its interface documents (providers/contracts.py:214-223) where a lemma asks for
  it. One clause is not in that text: an adapter that returns FAILED, rather than raising, knows that nothing
  was accepted.
- A cached value is fresh as long as the version key has been neither lost nor reset and no call for it has
  failed; the bound by the TTL holds without that. A write is visible before its bump.
- The limiter's bound counts hits answered by Redis; a Redis error lets a hit through.
- A new customer's shop has balanced employee books, whose mirror rows belong to payments already issued, those
  of one payment sitting with one employee. Payments and deletions on other accounts are part of the runs.
- Where a run lemma asks for balanced employee books, undoing a sale payment credits every employee what its
  rows took. That holds when the sale's recipient was not edited in between.

## Model

| member | source | states |
|---|---|---|
| `SettlementPass.SettlesTheFittingPrefix` | customers/services.py:954-987 | the loop marks paid, with the payer's stamp, exactly the pending sales whose whole queue up to and including them fits the headroom, and touches no other sale |
| `SettlementPass.PassSettlesIff` | customers/services.py:904-987 | one run of the pass settles a sale, free or not, exactly when it is pending, there is headroom and a payment, and the queue up to it fits |
| `SettlementPass.SettlingRespectsTheAdjustmentReserve` | customers/services.py:925-948 | from every state, a pass that settles anything ends with paid sales plus net adjustment debt within the payments |
| `SettlementPass.PassIsAFixpoint` | customers/services.py:886-987 | from every state with non-negative pending prices, a second run settles nothing, although it recomputes the reserve from changed sums |
| `SettlementPass.SecondRunSettlesMoreIff` | customers/services.py:904-987 | from every state and for any prices, a second run settles more exactly when what the first one left, with the reserve it set free, covers the first sale left pending |
| `SettlementPass.SecondRunNeedsNegativeSpending` | customers/services.py:939-948 | that happens only where the first run spent less than nothing, on debt that no sale and no adjustment accounts for |
| `CustomerLimits.NegativePriceMovesTheFixpoint` | customers/services.py:886-987 | a run of direct service calls with a negative price, sales added to a written-off customer among them, ending in a posting after which the pass still settles more; the forms and the customer lookup of the sale flow would stop it |
| `SettlementPass.PassTotals` | customers/services.py:904-987 | what the pass moves from the pending to the paid total, never more than its headroom |
| `CustomerStamps.SettledByTheNewest` | customers/services.py:877-883 | a sale settled by a pass that no payment triggered carries the id and the rail of the payment with the largest id on file |
| `CustomerStamps.SettledByItsTrigger` | customers/services.py:950-974 | a sale settled by a pass that a payment triggered carries that payment's id and rail |
| `CustomerStamps.PaidSalesNameAPaymentOnFile` | customers/services.py:793-832 | after every run, deletions, price edits and write-offs included, each paid sale carries id and rail of a payment on file, and no other sale carries any |
| `SettlementPass.SettleInTwoSteps` | customers/services.py:964-986 | settling with an amount, then with the rest plus an extra, settles the same sales as settling once with the whole |
| `SettlementPass.MoreSettlesMore` | customers/services.py:964-986 | a larger amount settles every sale a smaller one settles |
| `CustomerRuns.BalanceIsConserved` | customers/services.py:28-32 | for a new customer of any shop in use, after every run of postings, price edits, payments, submissions, adjustments, write-offs and deletions, and whatever other customers and the office do, the balance is charges plus adjustments minus payments on file minus reversals, and employee balances equal their ledgers |
| `CustomerRuns.RunKeepsSound` | customers/services.py:127-874 | the invariant behind it over every run: each payment owns ledger rows that total its amount, stamps and submissions point at issued payments, mirror rows sit with the employee holding the money, employee books balance |
| `CustomerRuns.SoundBooksBalance` | customers/services.py:28-32 | under that invariant the balance is the sum by kind of row, with payments counted from the payment table |
| `CustomerRuns.CollapseSum` | customers/services.py:227-236 | collapsing the CHARGE rows of a sale changes any ledger total by exactly the rows dropped and the one rewritten |
| `CustomerRuns.WithdrawnKeepsLedger` | customers/services.py:793-817 | removing a payment with its mirror rows and refunding its amount keeps balance and ledger equal |
| `CustomerTheorems.DeletionUndoesPayment` | customers/services.py:277-342 | where the pass has nothing to do, recording a payment and deleting it restores sales, stamps, ledger, balance, submissions and employee books, whichever sales it settled |
| `CustomerTheorems.OfficeRestored` | employees/services.py:217-270 | crediting back a customer payment undoes its debit, row and balance |
| `CustomerTheorems.ReserveCollapses` | customers/services.py:933-943 | when charges match prices, nothing is orphaned and paid sales are covered, the two-way reserve is just the net adjustment debt |
| `CustomerTheorems.BalanceOfMatchingCharges` | customers/services.py:146-159 | with matching charges the balance is pending plus paid plus adjustments minus payments |
| `CustomerTheorems.PostKeepsClean` | customers/services.py:127-172 | posting, first or repeated, keeps charges equal to prices and paid sales covered |
| `CustomerEffects.PostIff` | customers/services.py:127-145 | a posting is refused exactly when the sale is not on the account, or neither waits nor is pending |
| `CustomerStamps.ChargedOnPosting` | customers/services.py:146-172 | a posting charges the price in one new row, unless the sale has a CHARGE row, and then runs the pass |
| `CustomerTheorems.RepriceKeepsClean` | customers/services.py:186-260 | editing a price on clean books keeps them clean, paid sales included |
| `CustomerEffects.RepriceIff` | customers/services.py:186-216 | a price edit is refused exactly when it gives a posted sale that was charged a negative price |
| `CustomerEffects.RepriceSetsThePrice` | customers/services.py:186-260 | the edited sale gets the price, every other price and all else on the account stays |
| `CustomerEffects.RepriceMovesTheBalance` | customers/services.py:217-260 | the balance moves by the new price less the total of the sale's CHARGE rows, and if it does not move nothing else changes |
| `CustomerTheorems.SyncRestoresTheCharge` | customers/services.py:210-236 | whatever the CHARGE rows of a posted sale were, duplicates included, they end up totalling its price |
| `CustomerTheorems.PayKeepsClean` | customers/services.py:277-342 | a payment keeps charges matching and paid sales covered |
| `CustomerEffects.PaymentIsTakenIff` | customers/services.py:292-302 | a payment is taken exactly when it is positive and names a rail, or an employee on file who holds the money |
| `CustomerEffects.PaymentIsRecorded` | customers/services.py:303-329 | it files that payment with its rail or holder and one ledger row, lowers the balance by the amount, and debits that employee and nobody else by as much |
| `CustomerEffects.DeletePaymentIff` | customers/services.py:769-792 | on sound books a payment can be deleted exactly when it is on file |
| `CustomerEffects.DeletedPaymentIsForgotten` | customers/services.py:793-832 | afterwards no sale, ledger row, submission or employee row refers to it, every other row is still there, and the balance rose by its amount |
| `CustomerTheorems.WriteOffKeepsClean` | customers/services.py:627-712 | a write-off keeps charges matching and paid sales covered |
| `CustomerRuns.ApproveIsPay` | customers/services.py:423-447 | approving pays the submitted amount by the submitted channel, changes nothing else, and marks that submission approved with the payment it issued |
| `CustomerEffects.SubmitIff` | customers/services.py:372-396 | a submission is filed exactly when the customer is active, the amount positive, and a rail or a recipient named |
| `CustomerEffects.SubmitThenApproveIsPay` | customers/services.py:397-457 | submitting and then approving is refused exactly when the direct payment would be, and otherwise leaves the books the direct payment leaves, plus that submission approved with that payment |
| `CustomerEffects.RejectionOnlyMarks` | customers/services.py:460-478 | only a waiting submission is rejected, and nothing but its status changes |
| `CustomerTheorems.DeletionKeepsPaidCoveredIff` | customers/services.py:769-832 | after deleting a payment the paid sales are covered exactly when those it did not settle were covered by the others |
| `CustomerQueues.CleanStepIff` | customers/services.py:127-874 | from clean books, a call keeps them clean exactly when it is one of these: any call but price changes, deletions and undone sale payments; prices not negative, or refused; deleted payments whose loss the others cover; deleted rows that leave every charge alone; undone sale payments that credit every employee what was taken |
| `CustomerQueues.DeletionKeepsChargesIff` | customers/services.py:835-874 | removing one ledger row keeps charges matched exactly when it names no sale, or is for nothing and not the only charge of a posted sale |
| `CustomerQueues.CleanRuns` | customers/services.py:904-948 | in every run of such calls, at every moment, the books are clean and the reserve is the net adjustment debt |
| `CustomerQueues.PaidSalesAreTheCoveredPrefix` | customers/services.py:886-987 | after any interleaving of postings in created order and payments by any channel, free sales included and whatever the office does, the paid sales are exactly those whose cumulative price the payments cover, but for free sales pending at exactly that price; nothing is owed exactly when nothing with a price is pending |
| `CustomerQueues.QueueIsTheCoveredPrefix` | customers/services.py:904-987 | the same for any state where paid sales precede pending ones and the pass has stopped |
| `CustomerQueues.HistorySpends` | customers/services.py:277-342 | on clean books, any list of payments, each direct or through an employee, leaves the sales as if their total had been spent at once |
| `CustomerQueues.InstalmentsSettleTheSame` | customers/services.py:277-342 | so any two lists of payments with the same total, by any mix of channels, settle the same sales |
| `CustomerQueues.LargerPaymentSettlesMore` | customers/services.py:277-342 | a list of payments with a larger total, by any mix of channels, settles every sale a smaller one settles |
| `CustomerLimits.DeletionCanUncoverPaidSales` | customers/services.py:785-832 | a run that ends with more paid than the payments on file |
| `CustomerLimits.FreeSaleStaysPending` | customers/services.py:945-948 | the exception to the covered prefix happens: a posted free sale that stays pending |
| `CustomerLimits.SubmissionIsAppliedAtMostOnce` | customers/services.py:423-470 | over any run a submission is applied at most once, and was applied exactly when it ends approved |
| `CustomerLimits.WriteOffClearsTheDebt` | customers/services.py:627-712 | after a write-off nothing is pending and nothing is owed; the balance is zero exactly when it was at least the pending total |
| `CustomerEffects.WriteOffLeavesTheRest` | customers/services.py:627-730 | every sale that was not pending stays, no ledger row goes, and the balance ends at zero or at the credit beyond the pending sales |
| `CustomerEffects.AdjustmentMovesTheBalance` | customers/services.py:580-624 | an adjustment of anything but zero files one row of its signed amount and moves the balance by it |
| `CustomerEffects.DeletedEntryIsUndone` | customers/services.py:835-874 | any row but the mirror of a payment can go, that row and no other, and the balance loses what it was worth |
| `CustomerAccount.Account.ReapplySettlements` | customers/services.py:886-987 | the method in place does what the pass function says, stamps every sale it changes with the trigger or else the newest payment, and returns how many it settled |
| `CustomerAccount.Account.SettleOldestFirst` | customers/services.py:954-987 | the loop over sales, in place, is the settlement function |
| `CustomerAccount.Account.PostOnAccountSale` | customers/services.py:127-172 | posting in place, with its refusals |
| `CustomerAccount.Account.SyncCharge` | customers/services.py:186-260 | charge alignment in place, with duplicates collapsed and a paid sale reopened |
| `CustomerAccount.Account.RecordPayment` | customers/services.py:277-369 | payment, ledger row, balance, employee debit and pass, or no change at all |
| `CustomerAccount.Account.DeleteRecordedPayment` | customers/services.py:769-832 | deletion with reopened sales, refund, employee credit and pass, or no change at all |
| `CustomerAccount.Account.RecordAdjustment` | customers/services.py:580-624 | a signed adjustment, refused at zero |
| `CustomerAccount.Account.WriteOffBalance` | customers/services.py:627-730 | the write-off in place, and the debt it reports as cleared |
| `CustomerAccount.Account.DeleteLedgerEntry` | customers/services.py:835-874 | removing one row undoes its own effect on the balance; a live payment's mirror row is refused |
| `CustomerAccount.Account.SubmitPayment` | customers/services.py:372-420 | a submission is filed and moves no money |
| `CustomerAccount.Account.ApproveSubmission` | customers/services.py:423-457 | only an awaiting submission is applied, once |
| `CustomerAccount.Account.RejectSubmission` | customers/services.py:460-478 | only an awaiting submission is rejected, and nothing else changes |
| `Staff.ReverseBalancedIff` | employees/services.py:195-214 | undoing rows keeps every cached balance equal to its ledger exactly when the credited employee owns the rows or they total zero |
| `Staff.ReverseBalancedExactly` | employees/services.py:195-214 | undoing any employee rows keeps the books balanced exactly when every employee is credited what those rows took from them |
| `Staff.ReverseUndoesAddRow` | employees/services.py:217-270 | undoing a row just added restores rows and balances |
| `Staff.DeleteRowKeepsBalanced` | employees/services.py:306-347 | deleting a ledger row by hand keeps cached balances equal to the ledger |
| `Staff.AccrueKeepsBalanced` | employees/services.py:94-139 | accruing a salary, forced or not, keeps cached balances equal to the ledger |
| `Staff.AccrualIsOncePerMonth` | employees/services.py:94-139 | accruing again changes nothing unless forced, and a forced accrual leaves the current salary booked |
| `StaffEffects.SalaryIsBooked` | employees/services.py:94-139 | what an accrual books, exactly: nothing for an inactive employee or no salary, else one row of the salary, or with force the row of that month rewritten, and the balance moved by the difference |
| `StaffEffects.SalePaymentIsOwedOnce` | employees/services.py:163-192 | the employee who took a sale's money owes its price from the first call on and only once; refused exactly without a recipient on file |
| `StaffEffects.UndoneSalePaymentIsForgotten` | employees/services.py:195-214 | undoing it with the same recipient puts rows and balances back |
| `StaffEffects.ReversalIff` | employees/services.py:195-270 | giving back what nobody owes changes nothing; otherwise it is refused exactly when the credited employee is not on file |
| `StaffEffects.StaffRowsMoveTheBalance` | employees/services.py:285-347 | an adjustment, and deleting a row by its place, change that row and that employee's balance by its amount, and nothing else |
| `CustomerStaff.OneAccrualPerMonthInEveryRun` | employees/services.py:94-139 | over every run of all services, forced accruals included, no employee has two accrual rows for one month |
| `Staff.OfficeTables.AccrueSalaryForMonth` | employees/services.py:94-139 | the accrual in place, with its refusals |
| `Staff.OfficeTables.RecordSalesPaymentReceived` | employees/services.py:163-192 | the debit for a sale payment held in hand |
| `Staff.OfficeTables.DeleteLedgerEntry` | employees/services.py:333-347 | removing a row that mirrors no payment undoes its own effect on the balance |
| `CustomerAccount.Account.DeleteEmployeeEntry` | employees/services.py:306-347 | removing a mirror row takes the whole customer payment with it, on whichever account it is |
| `Staff.OfficeTables.ReverseSalesPaymentForSale` | employees/services.py:195-214 | the loop that credits back and deletes the rows of a sale |
| `Staff.OfficeTables.RecordCustomerPaymentReceived` | employees/services.py:217-249 | the debit for a customer payment held in hand |
| `Staff.OfficeTables.ReverseCustomerPaymentReceived` | employees/services.py:252-270 | the loop that credits back and deletes the rows of a payment |
| `LoginProtocol.ReleaseDeletesOnlyItsOwnLock` | providers/sessions.py:39-55 | under any interleaving of expiry, other acquisitions and the WATCH, GET, MULTI, EXEC steps, a release never deletes a lock with another token |
| `LoginTheorems.LoginsNeverOverlap` | providers/sessions.py:166-191 | at most one worker is inside a login at any moment |
| `LoginTheorems.OneLoginPerGeneration` | providers/sessions.py:175-189 | the generation is the number of logins counted, each login started from the number counted before it, and two started from one generation exactly when neither the first nor any between was counted |
| `LoginTheorems.OnlyAFailedCountLosesALogin` | providers/sessions.py:180-191 | a login is lost to the count only if its worker died before the increment, or the increment raised |
| `LoginTheorems.LostLoginIsRepeated` | providers/sessions.py:180-189 | a run in which a worker dies between its login and the count, and one in which the count raises in a live worker; either way a second worker logs in from the same generation |
| `LoginTheorems.NoLoginStartsDuringCooldown` | providers/sessions.py:164-178 | no login starts while a cool-down is running; that failed logins do start one is `LoginCooldown.FailedLoginKeepsEveryoneOut` |
| `LoginCooldown.FailedLoginKeepsEveryoneOut` | providers/sessions.py:123-187 | in every timely run: a worker whose login failed, and that neither dies nor has a call fail, counts the failure and sets the cool-down earned by one more than the failures that lived then, before it gives up the lock; from the failure until that cool-down is over no login starts, unless a success, a reset or another cool-down intervenes |
| `LoginCooldown.ExemptFailureLeavesNoTrace` | providers/sessions.py:180-187 | a login that failed after sending an SMS code changes neither cool-down nor failure count, at once or on its worker's way out |
| `LoginCooldown.SuccessClearsTheRecord` | providers/sessions.py:188-191 | a worker whose login succeeded, and that neither dies nor has a call fail, moves the generation on by one and clears cool-down and failures before it gives up the lock, and then returns normally |
| `LoginCooldown.FailuresAreRememberedForAnHour` | providers/sessions.py:123-127 | a failure count lasts exactly one hour after it was kept, unless another failure, a success or a reset comes first |
| `LoginCooldown.CountingAddsOne` | providers/sessions.py:123-127 | counting a failure adds one to those that still live, and keeps their expiry until it is set anew |
| `LoginCooldown.ChecksDecide` | providers/sessions.py:162-178 | a refused worker queues for the lock exactly when no cool-down runs; the holder goes on exactly when the generation is the one it read and no cool-down runs; waiting too long fails |
| `LoginCooldown.ResetForgets` | providers/sessions.py:101-109 | a reset clears cool-down and failures and touches no lock and no worker |
| `LoginCooldown.OnlyRefusedWorkersLogIn` | providers/sessions.py:146-156 | a worker starts a login only after the provider refused the call it made since it last read the generation |
| `LoginCooldown.LoginIsRecordedWithItsReading` | providers/sessions.py:147-188 | a login is recorded with the generation its worker read last |
| `LoginCooldown.NoLockIsLeftBehind` | providers/sessions.py:174-196 | while no worker dies and no call of a release fails, a lock that has not timed out belongs to a worker still to release it, whatever else fails inside |
| `LoginTheorems.NormalReturnMeansANewLogin` | providers/sessions.py:159-190 | a normal return means some login was counted after the caller read its generation; it also completed after the reading, unless it was the one done but not counted then |
| `LoginTheorems.LoginMayPrecedeTheReading` | providers/sessions.py:147-189 | a run in which the login that lets a worker return completed before the worker read the generation |
| `LoginTheorems.CooldownGrowsToItsCap` | providers/sessions.py:123-130 | the cool-down never shrinks with more failures and stays between its base and its cap |
| `LoginCooldown.CooldownDoublesToItsCap` | providers/sessions.py:127-130 | a minute after the first failure, doubled by each further one, up to a quarter of an hour |
| `ProviderCalls.ChargeCall.RunAuthenticated` | providers/sessions.py:133-156 | at most two adapter calls, the second only after `AuthRequired` and a login, and the answer of the last one |
| `ProviderCalls.ChargeCall.ChargeOnce` | providers/service.py:298-334 | the outcome of one charge, after at most two adapter calls, the second only after `AuthRequired` and a login; an outcome the last call returned is passed on unchanged, and only such an outcome is a success |
| `ProviderCalls.ChargeReports` | providers/service.py:298-334 | the whole report of a charge in terms of the calls made: the last one's outcome unchanged, or its exception by kind, a disabled account, or a failed login |
| `ProviderCalls.SuccessIsTheAdapters` | providers/service.py:315-316 | a charge is reported as success exactly when the last call made returned success |
| `ProviderCalls.AtMostOneRequest` | providers/contracts.py:214-223 | under the adapter contract, one charge sends at most one request |
| `ProviderCalls.FailedMeansNotAccepted` | providers/service.py:315-332 | under the adapter contract, FAILED is never reported for a charge that may have been accepted |
| `ProviderCalls.UnverifiedExactlyOnAdapterTransient` | providers/service.py:304-334 | a raised error ends in UNVERIFIED exactly when the adapter itself raised `TransientError` |
| `ProviderCalls.ReachedProviderIsRightIff` | providers/contracts.py:68-70 | on raised errors, the flag says whether a request reached the provider exactly when the last call was no refusal the provider had answered, and no `TransientError` raised before anything was sent |
| `ProviderCalls.RefusalClearsReachedProvider` | providers/service.py:317-325 | an answered refusal is reported as not having reached the provider |
| `ProviderCalls.LockWait` | providers/service.py:60-70 | the login wait is its cap, or what is left before the deadline, or zero past it, and never more than either |
| `ProviderCalls.Refresh` | providers/service.py:73-114 | attempts start within the budget, follow each other by the fixed delays, only after retryable errors, and the recorded count is the number started |
| `ProviderCalls.RetriesAreSpaced` | providers/service.py:73-114 | an attempt is followed by another only after a temporary failure that is no failure of the login, by one second and then by two, three times at most |
| `ProviderCalls.ErrorsAreNamed` | providers/service.py:52-53 | an error is reported by its code, or by its name when it has none |
| `ProductLines.CanonicalMeaning` | inventory/line_utils.py:8-18 | the pool's line is the active line of the trimmed name, ignoring case, with the least key, or the line itself |
| `ProductLines.CanonicalIsIdempotent` | inventory/line_utils.py:8-18 | the canonical line of a canonical line is itself |
| `ProductLines.OnePoolPerName` | inventory/line_utils.py:8-18 | two lines whose trimmed names name active lines share a pool exactly when the names are equal up to case |
| `ProductLines.SharedPoolIff` | inventory/services.py:38-39 | the same by key, as stock moves: two lines of the table use one pool exactly when their trimmed names are equal up to case |
| `ProductLines.StockLineMeaning` | inventory/services.py:38-39 | the pool's key is that of the canonical line, and a key without a row is its own |
| `ProductLines.StripTakesBlanks` | inventory/line_utils.py:9-12 | trimming takes away the blanks at both ends, all of them and nothing else |
| `ProductLines.SameNameIgnoresCase` | inventory/line_utils.py:13-16 | names match exactly when they are equal letter by letter but for case |
| `StockRuns.QuantityIsInMinusOut` | inventory/services.py:267-605 | after every run every pool holds the movements in minus the movements out, and is never negative |
| `StockRuns.DeleteRowKeepsStock` | inventory/services.py:451-459 | deleting an empty row and unlinking its movements keeps that tally for every pool |
| `StockRuns.DeleteMovementKeepsStock` | inventory/services.py:462-529 | deleting any movement that may be deleted keeps it too |
| `StockSales.QuantitiesChangeAsAsked` | inventory/services.py:267-605 | each receipt, transfer, correction, loss or deletion changes exactly the pools it names by what it names |
| `StockEffects.ReceiveIff` | inventory/services.py:124-295 | a receipt is accepted exactly when it is of at least one, with no serials or as many different ones, none of them taken |
| `StockEffects.ReceiptRegistersItsCards` | inventory/services.py:124-295 | it registers each serial in main stock under its movement, changes no other card, and logs that movement |
| `StockEffects.AllocateIff` | inventory/services.py:298-344 | an allocation is accepted exactly when main stock holds that many and every card named is there, of that line |
| `StockEffects.AllocationMovesItsCards` | inventory/services.py:150-175 | it hands exactly the named cards to the customer and logs the transfer |
| `StockEffects.ReturnIff` | inventory/services.py:347-388 | a return is accepted exactly when the customer holds that many and every card named is with some customer |
| `StockEffects.ReturnMovesItsCards` | inventory/services.py:178-193 | it takes exactly the named cards back to main stock and logs the transfer |
| `StockEffects.CorrectionIff` | inventory/services.py:399-605 | when a correction, a clearing, a damage or a manual sale is accepted, exactly |
| `StockEffects.CorrectionIsLogged` | inventory/services.py:399-605 | each logs one movement of its kind, amount, row and owner and touches no card and no sale; setting a row to what it holds logs nothing |
| `StockEffects.DeletedRowIsUnlinked` | inventory/services.py:451-459 | only an empty row goes, and every movement stays as it was without its reference to that row |
| `StockEffects.MovementIsDeletedIff` | inventory/services.py:462-506 | a movement is deleted exactly when it is in the log, belongs to no sale, and the row it filled still holds as much |
| `StockEffects.DeletedMovementPutsCardsBack` | inventory/services.py:507-529 | it leaves the log, and exactly the cards it moved last are put back or, after a receipt, removed |
| `StockEffects.PayerMeaning` | inventory/services.py:25-35 | a payer is the one active customer of the trimmed name, ignoring case; two make it ambiguous, none or no name nobody |
| `StockSales.RegisterIff` | inventory/services.py:124-147 | registering cards is refused exactly when a serial is taken or repeated, ignoring case |
| `StockSales.MoveCardsIff` | inventory/services.py:150-193 | moving cards is refused exactly when one is repeated or not where it should be |
| `StockSales.RunKeepsSound` | inventory/services.py:267-775 | over every run, edits of lines, customers and sales included: the tally, the sale-linked movements and the cards agree with the sales |
| `StockSales.ConsumedOnceMoreThanReversed` | inventory/services.py:620-775 | in every run a sale has one more consuming movement than reversals while it is consumed, and as many otherwise |
| `StockSales.UndoKeepsCards` | inventory/services.py:515-528 | deleting a movement leaves every sold card exactly as it was |
| `StockSales.ReversalCreditsTheDebitedPool` | inventory/services.py:720-775 | a consumed sale can always be reversed, and the SIM goes back where it came from exactly when its line stands for the same pool |
| `StockSales.ReversalAfterAnyRun` | inventory/services.py:620-775 | the same after any run between deduction and reversal |
| `StockSales.ReverseUndoesConsume` | inventory/services.py:620-775 | reversing at once restores every quantity, every card's status and owner, and the sale |
| `StockSales.PreviewPredictsConsume` | inventory/services.py:52-101 | the deduction succeeds exactly when the preview shows one available and any card named is there, and takes one from the previewed row only |
| `StockEffects.PreviewMeaning` | inventory/services.py:52-101 | the preview shows the payer's own stock if one is left there, else main stock, with what it holds |
| `StockEffects.SaleTakesItsCard` | inventory/services.py:196-223 | a deduction marks the sale with its source and movement, logs it, and takes exactly the card the sale names, from where the stock came |
| `StockEffects.ReversalReturnsItsCards` | inventory/services.py:226-236 | a reversal logs one movement, clears the sale, and gives exactly its cards back, to the customer or to main stock |
| `StockEffects.NothingToDo` | inventory/services.py:620-640 | a sale of anything else, or already deducted, is left alone, and so is the reversal of one not deducted |
| `StockEffects.SoldCardStays` | inventory/services.py:124-775 | in every run a sold card stays as it is until its own sale is reversed |
| `StockUndo.UndoNewestIff` | inventory/services.py:462-529 | undoing the newest k movements is refused exactly when the log, cut just before one of them, leaves the row it filled below zero |
| `StockUndo.RunIsUndone` | inventory/services.py:462-529 | everything a run of recordings logged can be undone newest first, never refused, and every pool is back to its quantity |
| `StockUndo.DeletionCanBlockOlderUndo` | inventory/services.py:497-506 | after an older deletion the newest movement can be refused |
| `StockUndo.UndoReceiveRestoresCards` | inventory/services.py:515-519 | undoing a receipt removes exactly the cards it registered |
| `StockUndo.UndoAllocateRestoresCards` | inventory/services.py:520-524 | undoing an allocation restores status and owner of every card |
| `StockUndo.UndoReturnRestoresCardsIff` | inventory/services.py:178-193 | undoing a return restores them exactly when each card was with the customer named |
| `StockCards.UndoneRunRestoresCardsIff` | inventory/services.py:515-529 | from any sound tables, after undoing everything a run of recordings logged, every card is where it was and none is left over, exactly when each card moved since was there before in the place that undoing its last movement gives, receipts excepted |
| `StockUndo.TwoUndosStrandTheCards` | inventory/services.py:515-529 | undoing a return and the allocation before it restores quantities but leaves the cards with the customer |
| `StockRoom.Shelves.Receive` | inventory/services.py:267-295 | receipt in place, cards registered in a loop, rolled back on a refused serial; what that comes to is `StockEffects.ReceiveIff` and `ReceiptRegistersItsCards` |
| `StockRoom.Shelves.Allocate` | inventory/services.py:298-344 | transfer to a customer in place, rolled back on a missing card |
| `StockRoom.Shelves.Return` | inventory/services.py:347-388 | transfer back in place, rolled back on a missing card |
| `StockRoom.Shelves.SetQuantity` | inventory/services.py:399-437 | an absolute correction, logged as the difference or not at all |
| `StockRoom.Shelves.Clear` | inventory/services.py:440-448 | an absolute correction to zero |
| `StockRoom.Shelves.Adjust` | inventory/services.py:532-560 | a signed correction that never goes below zero |
| `StockRoom.Shelves.Withdraw` | inventory/services.py:563-605 | damaged and manually sold stock leaves a row, and never more than it holds |
| `StockRoom.Shelves.DeleteRow` | inventory/services.py:451-459 | only an empty row is deleted, and its movements are unlinked |
| `StockRoom.Shelves.DeleteMovement` | inventory/services.py:462-529 | quantities and cards put back in a loop, sale-linked movements refused |
| `StockRoom.Shelves.Consume` | inventory/services.py:620-717 | the deduction for a sale in place, done once, rolled back when refused |
| `StockRoom.Shelves.Reverse` | inventory/services.py:720-775 | the reversal in place |
| `Jobs.JobTable.MarkRunning` | providers/jobs.py:38-53 | takes a queued job and no other |
| `Jobs.JobTable.Finish` | providers/jobs.py:59-72 | finishes a job unless it already finished |
| `Jobs.JobTable.FailIfQueued` | providers/jobs.py:83-94 | fails a queued job and no other |
| `Jobs.JobTable.FailStuck` | providers/jobs.py:120-148 | called on its own, fails exactly the running jobs of the kind started, and the queued ones created, more than the given time ago, and returns them, running ones first; races with workers are in `JobRuns` |
| `Jobs.StuckInOrder` | providers/jobs.py:129-137 | the jobs returned come running ones first, older before younger, and none twice |
| `JobCauses.ReapedRunningJobStartedLongBefore` | providers/jobs.py:120-148 | in every interleaving a running job is reaped only if the reaper's listing came more than its limit after the step in which a worker took the job |
| `JobCauses.ReapedQueuedJobWasCreatedLongBefore` | providers/jobs.py:120-148 | a queued job only if the listing came more than the limit after the job was created |
| `JobCauses.OnlyOpenJobsAreReaped` | providers/jobs.py:138-147 | nothing but running and queued refresh jobs is reaped, with the reaper's result |
| `JobRuns.TakenAtMostOnce` | providers/jobs.py:38-53 | in every interleaving of workers, redeliveries, queue failures and the reaper a job is taken at most once |
| `JobRuns.FinishedIsFinal` | providers/jobs.py:56-148 | a finished job's status and result never change again |
| `JobCauses.FinishingStores` | providers/jobs.py:56-94 | what each way to finish a job stores: done or failed as the worker reports, failed otherwise, with the result it came with and the time; a cancellation only from the queue |
| `JobCauses.DoneByTheWorkerThatTookIt` | phone_refresh/tasks.py:119-150 | in every interleaving a job is done only by the worker that took it, with the result that worker computed |
| `JobCauses.NobodyIsForgotten` | phone_refresh/tasks.py:119-165 | while no process dies and nobody cancels, a finished job has exactly one rightful notification, sent or still to be sent, and an open one none |
| `JobRuns.OneRightfulNotification` | phone_refresh/tasks.py:119-165 | in every interleaving, of the notifications sent by whoever made the job's last update there is at most one, and it carries the stored result |
| `JobRuns.NotifiedAtMostOnceWithTheStoredResult` | phone_refresh/tasks.py:119-165 | at most one notification about a job is sent, carrying the stored result, exactly when no failed enqueue that lost its update notified beside another notification or with another result |
| `JobRuns.LostEnqueueNotifiesTwice` | phone_refresh/services/refresh_jobs.py:144-160 | a run in which a failed enqueue finds its job finished and sends a second notification, with a result that is not the stored one |
| `KpiCache.FailSoftCache.Guard` | core/cache.py:20-42 | one guarded call: skipped while the circuit is open, opening it on a failure |
| `KpiCache.OneTimeoutPerWindow` | core/cache.py:15-38 | an unreachable Redis costs at most one timeout every ten seconds |
| `KpiCache.SkippedOnlyAfterATimeout` | core/cache.py:15-38 | a call is skipped exactly when one timed out less than ten seconds before |
| `KpiCache.ReturnedValueIsFresh` | core/kpi_cache.py:49-82 | while the version key is kept, a call returns a value built no earlier than the last bump completed before it began, with every write bumped by then |
| `KpiCache.ServedValueIsAtMostATtlBehind` | core/kpi_cache.py:42-82 | in every run, keys lost and bumps missed included, a value served from the cache was built in the run, less than its TTL plus the delay of its storing before the lookup, and holds every write visible that long before |
| `KpiCache.StoredValueIsServed` | core/kpi_cache.py:69-82 | a stored value is served, not built again, to whoever looks under the same version and name within its TTL, unless it was evicted or replaced |
| `KpiCache.CallsEnd` | core/kpi_cache.py:69-82 | every call takes at most five cache calls and builds, and can always go on until it returns a value |
| `KpiCache.LostVersionRestartsAtOne` | core/kpi_cache.py:49-66 | whoever finds the version key missing sets it to one and goes on with one |
| `RateLimit.Limiter.CountHit` | core/ratelimit.py:20-36 | counts one hit and says whether it is within the limit and whether the window is to be started |
| `RateLimit.Limiter.Exceeded` | core/ratelimit.py:39-53 | true exactly when the next hit on the live key would be refused |
| `RateLimit.AtMostTwiceTheLimitPerWindow` | core/ratelimit.py:11-36 | any half-open interval one window long admits at most twice the limit, however late or repeated the expiry calls |
| `RateLimit.RefusedOnlyWhenUsedUp` | core/ratelimit.py:20-36 | in any run a hit is refused exactly when its window has already admitted as many as the limit |
| `RateLimit.WindowEndsOnTime` | core/ratelimit.py:26-30 | a window whose expiry was set ends exactly that long after, whatever hits come, and the next hit opens a new one |
| `RateLimit.EndlessWindowsAreEnded` | core/ratelimit.py:24-30 | a hit that finds no expiry set asks for one, and a live count keeps its expiry |

## Left out

- `cancel_sale`, `reject_sale`, `delete_sale_permanently`, `mark_sale_paid` and `delete_customer_completely`: their supplier books are a separate ledger; the stock and account calls they make are modelled.
- `consume_sim_for_sale` inside posting and approving: the account model does not include the roll-back of a posting when the SIM is missing.
- `consume_pending_new_sim_for_customer`: it picks the oldest such sale and calls the deduction that is modelled.
- `update_awaiting_customer_payment_submission`, `delete_employee_customer_payment_submission`: edits of a submission that has moved no money.
- The expense rows a salary accrual writes, the loop that accrues every employee's salary, and `sync_sales_payment_ledger_for_sale`: no part in the balances proved here.
- `number_info`, `check_charge`, `reconcile`, `keepalive` and the recording of provider operations: one adapter call each, with no second request.
- `find_inflight` and the submission lock of refresh jobs: they decide whether to create a job, not what happens to it.
- `distinct_sim_product_lines`: a drop-down list; it orders by name and so may show another line of the same pool.
- StockRoom.Shelves.DeleteRow: a balance row is identified by location, line and customer; a stale row object whose row was deleted and made again is refused by the database and is not distinguished here.
- ProductLines.CanonicalMeaning: letters are compared by ASCII case and trimmed of ASCII white space; the database's locale is not modelled.
- StockRuns.QuantityIsInMinusOut: quantities are unbounded integers, so the range of the database column is not modelled; neither is the deletion of customers or users.
- KpiCache.ReturnedValueIsFresh: says nothing once the version key has been lost, where the code does not promise it; a builder that returns nothing is not cached differently here.
- Jobs.JobTable.FailStuck: nothing runs between its listing and its updates; the machine in `JobRuns` interleaves them with everything else.
- RateLimit.AtMostTwiceTheLimitPerWindow: a Redis error lets a hit through, uncounted.
- Notes, names, audit records, translations, timestamps beyond order, permissions, pages and forms.
- Redis and the database themselves: keys with expiry, and rows updated atomically.
