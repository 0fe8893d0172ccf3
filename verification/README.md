# SureWina: money and draw integrity

A Dafny model of the parts of SureWina that money and fairness rest on, with proofs about every run of
them. Five components:

* **Ledger.** Validated double-entry posting under idempotency keys with a canonical fingerprint,
  reversal as the only correction, account and trial balances (`Json`, `Ledger`, `LedgerInput`,
  `LedgerService`, `LedgerFields`, `LedgerLaws`, `LedgerReversals`, `LedgerReports`, `LedgerPosting`;
  `Journals` is the part the flows build on).
* **Money flows.** Agents' legacy remittances with their competing settlement paths (`Remittance`,
  `RemittanceInv`, `RemittanceLaws`, `RemittanceRuns`, `RemittanceMoney`, `RemittanceConfirm`,
  `RemittanceConditions`, `RemittanceWallets`, `RemittanceService`, `RemittanceSweep`), prepaid sales and prizes (`AgentMoney`), provider refunds
  (`Refunds`, `RefundsInv`, `RefundsRuns`, `RefundsLaws`, `RefundsHistory`, `RefundsMatching`,
  `RefundsOnce`, `RefundsConditions`, `RefundsMoney`, `RefundService`) and the Phase 8 migration (`Migration`, `MigrationDispatch`,
  `MigrationOnce`, `MigrationOrder`, `WalletMigration`).
* **Draw engine.** Commit and reveal, claim, pool, selection and result, admin cancellation and refund
  quarantine as concurrent processes (`DrawEngine`, `DrawRuns`, `DrawWinners`, `DrawRefunds`,
  `DrawCancellation`, `DrawConditions`, `DrawService`), with the Merkle root and the rejection sampler (`DrawMath`).
* **Audit chain.** Sealing and verifying windows of the audit log (`AuditChain`).
* **Counting.** Jackpot offers (`Jackpot`), business days (`BusinessDay`) and the days the sweep files
  (`SweepDays`).

`dafny verify dfyconfig.toml` checks the whole project.

## How the model is built

A database transaction is one atomic step: it takes the tables to new tables or, when it throws, leaves
them as they were. What is read outside a transaction and acted on inside a later one is two steps with
anything in between; the first leaves an *intent*. A crash drops an intent. Each component has step
functions over its tables, an invariant that every step keeps, and theorems over every run from an initial
state. Where the source is a service that updates its rows, a class with those rows as fields has a method
for each transaction, and the method's contract says that it does exactly what the step function does.

Assumptions:

* SHA-256 (section 6.2 of FIPS 180-4) is some function from text to 64 hex digits, and HMAC (section 2 of
  RFC 2104) some function from a key and a counter to a block. Nothing is assumed about collisions: where
  a hash identifies something, the theorem ends "or these two hashed texts collide" (`Hashing.Collision`).
  No fixed-length hash is injective, so assuming that would make those theorems say nothing.
* The unique constraints the code relies on: ledger key, reversed journal, agent and day of a remittance,
  seed commitment and result of a draw, ticket reference, entry identifier, buyer with jackpot draw and
  threshold. Ticket references are what the generator makes, SW-XXXX-XXXX.
* Identifiers the database generates are new. Audit entries are appended above all existing numbers.
* A wallet credit or debit may be refused for the wallet's own reasons at any time; a debit is refused above
  the balance (`apps/api/src/wallet/wallet.service.ts:736-823`).
* Other flows may post at any time. Agents' receivables and the refund payable are moved by the modelled
  flows only (no other code posts to them); the accounts of `AgentMoney` may be moved by anybody.
* Amounts are whole numbers without a width, except that the ledger checks the safe-integer bound and the
  database's integer column.

## What does not hold, and exactly when

* *A paid remittance can wait for Finance for ever.* `confirmPayment` writes without looking again
  (`apps/api/src/agent-ops/agent-remittance.service.ts:90-97`). `RemittanceConfirm` says which steps do
  harm, that there is no way out, and gives a run. The money is still settled once.
* *A winner can be refunded.* The admin cancellation reads and writes in two steps
  (`apps/api/src/draws/draws.service.ts:204-223`). A cancellation written under the engine reopens the
  draw's tickets to refunds. Harm is done exactly when the engine then publishes a ticket whose refund has
  been started; `DrawCancellation` proves this for all runs, and that a cancellation in one step is safe.
  `DrawRefunds` has a run that does harm.
* *A refund can be drawn on the wrong account.* Reserving goes by the payment's status, the migration by
  status and tickets; `RefundsMatching` has the exact condition and a run.
* *A Paystack refund never completes by itself.* Reserving posts no accrual for Paystack
  (`apps/api/src/admin-ops/payment-refund.service.ts:519-541`) and settling demands one
  (`apps/api/src/ledger/payment-accounting.service.ts:322-328`).
* *A reconciled legacy wallet can be refused*, because a debit may come before the credit that funds it,
  and *a migrated one is sent to review when handled again* unless its balance was zero.
* *A moved cycle can lose a jackpot offer.* `Jackpot` has the exact condition for gap-free offers, for a
  purchase and for a run, the one for an exact count, and a run.
* *A Merkle root alone need not bind a pool with repeated references.* Together with the number of
  participants, which a result publishes beside it, it always does. `DrawMath` says exactly when two pools
  share a root and which pools it binds alone.
* *An audit digest need not identify its entry.* Among entries with the same metadata it does exactly when no
  free-text field holds the separator; `AuditChain` has the proof and two entries with one digest.
* *A worker that is down for 24 hours loses a day's remittances.* The comment at
  `apps/worker/src/remittance-sweep.service.ts:34-35` promises that any closed day without a row gets one, but
  a tick files only the last closed day. `SweepDays` says exactly which days are filed, and has a run that
  loses one.
* *Moving the sales close leaves a gap or an overlap between days.*

The model follows the code where its comments disagree: besides the comment on the sweep above, the one at
`apps/api/prisma/schema.prisma:213-214` says that tampering with an old window breaks every root after it, but
verification chains each window to the root stored before it
(`apps/api/src/audit/audit-checkpoint.service.ts:164-166`), so exactly the changed window is reported.

## Model

| member | source | states |
|---|---|---|
| Json.CanonicalIffSame | apps/api/src/ledger/ledger.utils.ts:84-131 | two JSON values have the same canonical form exactly when they differ only in the order of object keys |
| Json.CanonicalIdempotent | apps/api/src/ledger/ledger.utils.ts:84-131 | canonicalising twice changes nothing |
| Json.StringifyUnambiguous | apps/api/src/ledger/ledger.utils.ts:76-82 | canonical text can be read back in one way only, even followed by other text |
| Json.CanonicalJsonIffSame | apps/api/src/ledger/ledger.utils.ts:76-131 | equal canonical texts mean the same value up to key order, and conversely |
| Ledger.TrimIs | apps/api/src/ledger/ledger.service.ts:836-848 | trimming leaves no blank at either end and nothing to trim a second time |
| LedgerFields.TrimCuts | apps/api/src/ledger/ledger.service.ts:836-848 | trimming takes off the blanks at both ends and nothing else |
| Ledger.LinesOkExtend | apps/api/src/ledger/ledger.service.ts:884-926 | a line passes the per-line checks after accepted lines exactly when all of them are acceptable together |
| LedgerInput.CheckLinesIs | apps/api/src/ledger/ledger.service.ts:884-946 | the loop over the lines accepts exactly the inputs whose cleaned lines have distinct accounts and positive safe amounts, and returns those lines |
| Ledger.SortIgnoresOrder | apps/api/src/ledger/ledger.service.ts:948-961 | the stored order of lines depends on which lines there are, not on how they were passed |
| Ledger.SortKeeps | apps/api/src/ledger/ledger.service.ts:948-961 | sorting keeps every line as often as it came |
| LedgerInput.PayloadIdentifies | apps/api/src/ledger/ledger.service.ts:1068-1103 | two fingerprint payloads are the same value exactly when the journals agree in every field, metadata up to key order |
| LedgerService.CalculateLedgerTotals | apps/api/src/ledger/ledger.utils.ts:11-36 | the accumulator loop returns the totals of the two sides |
| LedgerService.CheckInputLines | apps/api/src/ledger/ledger.service.ts:884-946 | the loop with the set of seen accounts is the line check of the specification |
| LedgerService.Service.PrepareInput | apps/api/src/ledger/ledger.service.ts:821-1117 | the imperative validation equals the specification, error for error |
| LedgerService.PreparedIsGood | apps/api/src/ledger/ledger.service.ts:821-1117 | a prepared journal is balanced, non-zero, in whole naira, on existing NGN accounts, each at most once |
| LedgerFields.PrepareIff | apps/api/src/ledger/ledger.service.ts:821-1117 | an input is accepted exactly when key, references, lines, totals and accounts are in order, and every field of what is prepared is the one that came in |
| LedgerFields.PostStores | apps/api/src/ledger/ledger.service.ts:743-819 | a post under a new key succeeds exactly for an acceptable input whose total fits the column, and stores kind, references, description, date, metadata and lines of the input |
| LedgerFields.ReversalStores | apps/api/src/ledger/ledger.service.ts:362-412 | a reversal stores the lines of the original with their sides exchanged, the reference of the request and the link to the original |
| LedgerService.Service.Post | apps/api/src/ledger/ledger.service.ts:216-278 | posting takes the tables to exactly the specified tables and result and keeps the ledger invariant |
| LedgerService.Service.PostInternal | apps/api/src/ledger/ledger.service.ts:690-819 | prepare, look the key up, compare fingerprints, insert: equal to the specification |
| LedgerService.Service.Reverse | apps/api/src/ledger/ledger.service.ts:306-414 | reversing takes the tables to exactly the specified tables and result and keeps the ledger invariant |
| LedgerService.PostKeepsInv | apps/api/src/ledger/ledger.service.ts:690-819 | after any post: unique identifiers and keys, good journals, every reversal cancels an earlier journal, none reversed twice |
| LedgerService.PostedJournal | apps/api/src/ledger/ledger.service.ts:743-819 | a post that writes appends one well-formed journal under a key not used before |
| LedgerService.ReverseKeepsInv | apps/api/src/ledger/ledger.service.ts:322-414 | the same invariant after any reversal |
| LedgerService.ReversalLines | apps/api/src/ledger/ledger.service.ts:362-380 | the lines built for a reversal are acceptable, balanced, of the same total, and cancel the original on every account |
| LedgerService.StatusKeepsInv | apps/api/src/ledger/ledger.service.ts:1029-1039 | freezing or closing accounts leaves the stored journals well formed |
| LedgerLaws.PrepareIgnoresOrder | apps/api/src/ledger/ledger.service.ts:948-1103 | permuting the lines and the metadata keys of an input changes neither its acceptance nor its payload |
| LedgerLaws.FingerprintIdentifies | apps/api/src/ledger/ledger.service.ts:1064-1103 | equal fingerprints mean the same journal or an explicit hash collision |
| LedgerLaws.ReplayNeverWrites | apps/api/src/ledger/ledger.service.ts:706-737 | a post under a used key writes nothing; it returns the stored journal exactly when the payload is the same (or collides) and is refused otherwise |
| LedgerLaws.LosingTheRaceIsComingSecond | apps/api/src/ledger/ledger.service.ts:233-278 | recovery from a lost race on the key gives the answer of having posted second |
| LedgerLaws.RunKeeps | apps/api/src/ledger/ledger.service.ts:216-414 | over every run of posts, reversals, openings and status changes the invariant holds and journals are only ever added |
| LedgerLaws.ReplayAfterAnyRun | apps/api/src/ledger/ledger.service.ts:690-737 | after any further run a replay, lines and keys in any order, returns the first journal and writes nothing, unless an account is no longer active |
| LedgerFields.PostAgainIff | apps/api/src/ledger/ledger.service.ts:690-737 | after any run an acceptable post under the same key gets the first journal exactly when the two inputs agree in kind, references, description, date, metadata up to key order and lines up to order (short of a collision), and is refused otherwise |
| LedgerPosting.LedgerPostsByKey | apps/api/src/ledger/ledger.service.ts:690-819 | what the service accepts is posting by key on keys and canonical lines, short of a collision; the money flows use that posting |
| LedgerPosting.KeyedPostIsAccepted | apps/api/src/ledger/ledger.service.ts:690-819 | what posting by key accepts the service accepts exactly when the total fits its column or, under a used key, the journals agree in the other fields as well (short of a collision) |
| LedgerPosting.SameBalance | apps/api/src/ledger/ledger.service.ts:457-475 | the balance the flows compute with is what the ledger entries add up to |
| LedgerReversals.ReversalIsWellFormed | apps/api/src/ledger/ledger.service.ts:362-414 | a reversal built from any stored journal is refused only for its own key or reference or an inactive account, exactly then |
| LedgerReversals.ReversalErrors | apps/api/src/ledger/ledger.service.ts:322-414 | the complete list of ways a reversal of an existing journal fails, each leaving the tables alone |
| LedgerReversals.ReversalUndoesOriginal | apps/api/src/ledger/ledger.service.ts:322-414 | a new reversal takes exactly the effect of its original off every account |
| LedgerReversals.ReversalIsOnRecord | apps/api/src/ledger/ledger.service.ts:339-361 | a successful reversal is recorded as the reversal of its original under the requested key, or its fingerprint collides |
| LedgerReversals.ReversedOnceForAll | apps/api/src/ledger/ledger.service.ts:339-361 | after any run, the same key gets the recorded reversal back, any other key is refused, nothing is written |
| LedgerReversals.ChainsAlternate | apps/api/src/ledger/ledger.service.ts:322-414 | chains of reversals are finite, and each link switches the effect of the root journal off and on |
| LedgerReversals.OneReversalEach | apps/api/src/ledger/ledger.service.ts:339-361 | no two journals reverse the same one |
| LedgerReports.GroupsAddUp | apps/api/src/ledger/ledger.service.ts:549-620 | adding the database groups of a side gives the total of that side |
| LedgerReports.GetAccountBalance | apps/api/src/ledger/ledger.service.ts:439-537 | the balance report equals the sums over the single entries, or reports the missing account |
| LedgerReports.ComputeTrialBalance | apps/api/src/ledger/ledger.service.ts:539-688 | the fold over the grouped rows gives the totals of all entries and, for every account, the same figures as the account report |
| LedgerReports.BooksAlwaysBalance | apps/api/src/ledger/ledger.service.ts:539-688 | in every reachable ledger debits equal credits and asset plus expense balances equal liability plus equity plus revenue balances |
| RemittanceInv.LinkKeepsInv | apps/api/src/agent-ops/agent-accounting.service.ts:248-276 | posting in a role a remittance has not used, and linking the journal, keeps the whole invariant and never meets a used key |
| RemittanceLaws.CommissionKeeps | apps/api/src/agent-ops/agent-accounting.service.ts:218-279 | commission is posted once, when there is some, and nothing but its link changes |
| RemittanceLaws.CreditKeeps | apps/api/src/agent-ops/agent-accounting.service.ts:281-335 | crediting a negative day keeps the invariant |
| RemittanceLaws.EnsureKeeps | apps/api/src/agent-ops/agent-accounting.service.ts:337-368 | ensuring the commission, and closing a zero day, keeps the invariant |
| RemittanceLaws.SettleBankKeeps | apps/api/src/agent-ops/agent-accounting.service.ts:370-460 | bank settlement keeps the invariant and never meets a used key |
| RemittanceLaws.SettleWalletKeeps | apps/api/src/agent-ops/agent-accounting.service.ts:462-518 | wallet settlement keeps the invariant and never meets a used key, although it does not look at the settlement link |
| RemittanceLaws.PerformKeeps | apps/api/src/migration/phase8-migration.service.ts:1480-1576 | acting late on what was read outside the transaction keeps the invariant, for confirmations and for all back-fills |
| RemittanceLaws.LegacySaleKeeps | apps/api/src/migration/phase8-migration.service.ts:743-851 | a legacy sale is posted at most once however stale the link that was read |
| RemittanceLaws.LegacyPrizeKeeps | apps/api/src/migration/phase8-migration.service.ts:1332-1478 | a prize paid from the till comes off the receivable once |
| RemittanceLaws.CreateKeeps | apps/worker/src/remittance-sweep.service.ts:233-296 | a swept row enters once per agent and day and keeps the invariant |
| RemittanceRuns.StepKeepsInv | apps/api/src/agent-ops/agent-accounting.service.ts:218-518 | every step of every service, of the migration, and every crash keeps the invariant |
| RemittanceRuns.SettledAtMostOnce | apps/api/src/agent-ops/agent-accounting.service.ts:370-518 | in every interleaving a remittance has at most one commission journal and at most one journal that settles or credits it, exactly when linked |
| RemittanceRuns.DayNetsToZero | apps/worker/src/remittance-sweep.service.ts:207-219 | once the sales and prizes that make up the gross and winnings of a row are posted, with its commission and settlement, their effect on the receivable is zero, whatever the sign of the amount due |
| RemittanceRuns.ReceivableExplained | apps/api/src/agent-ops/agent-accounting.service.ts:218-518 | the whole receivable account in every reachable state: uncounted sales less uncounted prizes plus what rows have still to take; an accounted row leaves nothing |
| RemittanceRuns.ReceivableIsClear | apps/api/src/agent-ops/agent-accounting.service.ts:218-518 | when all rows of an agent are accounted the receivable holds uncounted sales less uncounted prizes, and nothing once all are counted |
| RemittanceMoney.BankSettlementMoves | apps/api/src/agent-ops/agent-accounting.service.ts:413-458 | effect of a bank settlement on every account |
| RemittanceMoney.WalletSettlementMoves | apps/api/src/agent-ops/agent-accounting.service.ts:494-515 | effect of a wallet settlement on every account, from a wallet that held the amount |
| RemittanceMoney.CreditMoves | apps/api/src/agent-ops/agent-accounting.service.ts:304-333 | effect of a wallet credit on every account |
| RemittanceMoney.LegacyBankMoves | apps/api/src/migration/phase8-migration.service.ts:3160-3275 | effect of a back-filled bank settlement on every account: the bank gains what the receivable loses |
| RemittanceMoney.LegacyCreditMoves | apps/api/src/migration/phase8-migration.service.ts:1695-1790 | effect of a back-filled wallet credit on every account |
| RemittanceMoney.LegacyDebitMoves | apps/api/src/migration/phase8-migration.service.ts:1790-1895 | a back-filled wallet settlement goes through exactly when the wallet allows it and holds the amount; its effect on every account |
| RemittanceMoney.LegacySaleMoves | apps/api/src/migration/phase8-migration.service.ts:743-851 | effect of a back-filled cash sale on every account, as revenue or in suspense |
| RemittanceMoney.LegacyPrizeMoves | apps/api/src/migration/phase8-migration.service.ts:1332-1478 | effect of a back-filled prize on every account |
| RemittanceWallets.NoWalletOverdrawn | apps/api/src/agent-ops/agent-accounting.service.ts:218-518 | in every run in which other flows overdraw no wallet, no wallet is overdrawn |
| RemittanceConditions.SettleBankIff | apps/api/src/agent-ops/agent-accounting.service.ts:384-458 | when a bank settlement goes through, on the row, and what it makes of the row |
| RemittanceConditions.SettleWalletIff | apps/api/src/agent-ops/agent-accounting.service.ts:472-515 | when a payment from the wallet goes through, on the row and the wallet, and what it makes of the row |
| RemittanceConditions.CreditIff | apps/api/src/agent-ops/agent-accounting.service.ts:281-335 | when a wallet credit goes through and what it makes of the row |
| RemittanceConditions.EnsureIff | apps/api/src/agent-ops/agent-accounting.service.ts:337-368 | ensuring the commission goes through for every row and closes exactly an open one that owes nothing |
| RemittanceConditions.OverdueIff | apps/worker/src/remittance-deadline.service.ts:120-146 | a row turns late exactly when it is pending with something due |
| RemittanceConditions.ConfirmIff | apps/api/src/agent-ops/agent-remittance.service.ts:71-97 | when a confirmation is accepted, and what is written later |
| RemittanceConditions.IntendIff | apps/api/src/migration/phase8-migration.service.ts:1517-1548 | which rows the migration takes up for a bank settlement, a wallet credit and a wallet settlement |
| RemittanceConfirm.SettledReadsReceivedIff | apps/api/src/agent-ops/agent-remittance.service.ts:71-97 | exactly which steps make a settled remittance read as anything but RECEIVED, by what the row and the wallet hold before the step |
| RemittanceConfirm.BackfillGoesThroughIff | apps/api/src/migration/phase8-migration.service.ts:1480-1576 | a back-filled bank settlement always goes through; one from the wallet exactly when the wallet allows it and holds the amount |
| RemittanceConfirm.StuckForEver | apps/api/src/agent-ops/agent-accounting.service.ts:384-411 | a settled remittance written back to AGENT_CONFIRMED stays so in every run |
| RemittanceConfirm.ConfirmationCanOverwrite | apps/api/src/agent-ops/agent-remittance.service.ts:71-97 | a run from the initial state that ends there |
| RemittanceService.AgentAccountingService.RecordCommission | apps/api/src/agent-ops/agent-accounting.service.ts:218-279 | never fails for an existing row; afterwards the row has exactly one commission journal if it earns commission, none if not, and only its commission link has changed |
| RemittanceService.AgentAccountingService.CreditNegativeRemittanceToWallet | apps/api/src/agent-ops/agent-accounting.service.ts:281-335 | commits the specified tables or throws and changes nothing, rolling back what it had posted; the tables stay sound |
| RemittanceService.AgentAccountingService.EnsureRemittanceCommission | apps/api/src/agent-ops/agent-accounting.service.ts:337-368 | commits the specified tables or throws and changes nothing, rolling back what it had posted; the tables stay sound |
| RemittanceService.AgentAccountingService.SettleBankRemittance | apps/api/src/agent-ops/agent-accounting.service.ts:370-460 | commits the specified tables or throws and changes nothing, rolling back what it had posted; the tables stay sound |
| RemittanceService.AgentAccountingService.SettleRemittanceFromWallet | apps/api/src/agent-ops/agent-accounting.service.ts:462-518 | commits the specified tables or throws and changes nothing, rolling back what it had posted; the tables stay sound |
| RemittanceService.AgentAccountingService.MarkOverdue | apps/worker/src/remittance-deadline.service.ts:120-146 | only a pending row with something due becomes late |
| RemittanceService.AgentAccountingService.ReadBeforeConfirming | apps/api/src/agent-ops/agent-remittance.service.ts:71-88 | the checks of a confirmation, made before its write |
| RemittanceService.AgentAccountingService.WriteConfirmation | apps/api/src/agent-ops/agent-remittance.service.ts:90-97 | the unguarded write, on whatever the row has become |
| RemittanceService.AgentAccountingService.RecoveryTick | apps/api/src/agent-ops/agent-remittance-accounting-recovery.service.ts:52-141 | a tick recovers the listed rows one after the other, each in its own transaction |
| RemittanceService.RecoveryAccounts | apps/api/src/agent-ops/agent-remittance-accounting-recovery.service.ts:113-123 | recovery finishes every row that owes nothing and the commission of any other, and is idempotent |
| RemittanceService.AgentAccountingService.DebitWallet | apps/api/src/wallet/wallet.service.ts:736-823 | a new debit takes exactly the amount off the wallet and is refused exactly when that would overdraw it; a repeated one takes nothing |
| RemittanceSweep.RemittanceSweepService.Tick | apps/worker/src/remittance-sweep.service.ts:78-306 | after a tick every agent with a sale or a prize has one record for the day, old records are untouched, new ones say what the tables say |
| RemittanceSweep.RemittanceSweepService.FileDay | apps/worker/src/remittance-sweep.service.ts:207-219 | amount due is gross less the floor of gross times rate less prizes |
| RemittanceSweep.TallySales | apps/worker/src/remittance-sweep.service.ts:165-181 | the map of tallies splits each agent's tickets and sales by kind |
| RemittanceSweep.CollectPayouts | apps/worker/src/remittance-sweep.service.ts:183-190 | the map of payouts holds each agent's total |
| RemittanceSweep.GrossIsWhatWasCollected | apps/worker/src/remittance-sweep.service.ts:89-93 | counting ticket face values counts the payments of the day |
| RemittanceSweep.RecordSays | apps/worker/src/remittance-sweep.service.ts:89-219 | a record in figures: whole naira of the commission, prizes from the till, and what is left of the cash sales confirmed in the day |
| RemittanceSweep.FiledRowsAreFresh | apps/worker/src/remittance-sweep.service.ts:207-219 | a swept record is what remittance accounting starts from; at a rate up to one the commission stays within the sales |
| AgentMoney.SaleMovesMoney | apps/api/src/agent-ops/agent-accounting.service.ts:39-151 | effect of a sale on every account: wallet charge plus commission is revenue, no receivable moves, the wallet held the charge |
| AgentMoney.SaleIff | apps/api/src/agent-ops/agent-accounting.service.ts:39-151 | a sale is recorded exactly when it already is, or its commission is below its amount and a willing wallet holds the rest |
| AgentMoney.SaleKeepsInv | apps/api/src/agent-ops/agent-accounting.service.ts:39-151 | a sale keeps revenue, expense and wallet books in step with the rows |
| AgentMoney.AccrualKeepsInv | apps/api/src/agent-ops/agent-accounting.service.ts:520-603 | an accrual posts expense, payable and tax once |
| AgentMoney.AccrualMovesMoney | apps/api/src/agent-ops/agent-accounting.service.ts:520-603 | when a prize is accrued, and the effect on every account: gross as expense, net and tax owed |
| AgentMoney.PayoutMovesMoney | apps/api/src/agent-ops/agent-accounting.service.ts:176-208 | effect of a prize payout on every account |
| AgentMoney.PayoutIff | apps/api/src/agent-ops/agent-accounting.service.ts:153-216 | when a payout goes through, on the claim and the wallet |
| AgentMoney.PayoutKeepsInv | apps/api/src/agent-ops/agent-accounting.service.ts:153-216 | a payout, live or back-filled, keeps the payable in step |
| AgentMoney.PayableIsWhatIsOwed | apps/api/src/agent-ops/agent-accounting.service.ts:153-603 | in every run, whatever other flows post, prize payable, tax, prize expense, revenue and commission expense hold what the rows say plus the net of the other journals; no wallet is overdrawn |
| AgentMoney.PostedAtMostOnce | apps/api/src/agent-ops/agent-accounting.service.ts:39-603 | in every run each claim has at most one accrual and one payout journal, live and back-filled together, and each sale one wallet and one commission journal, exactly when linked |
| AgentMoney.AgentAccountingService.RecordSaleInTransaction | apps/api/src/agent-ops/agent-accounting.service.ts:39-151 | commits the specified tables or throws and changes nothing, rolling back what it had posted; the tables stay sound and no key is used twice |
| AgentMoney.AgentAccountingService.RecordAgentPrizePayout | apps/api/src/agent-ops/agent-accounting.service.ts:153-216 | commits the specified tables or throws and changes nothing, rolling back what it had posted; the tables stay sound and no key is used twice |
| AgentMoney.AgentAccountingService.EnsurePrizeAccrual | apps/api/src/agent-ops/agent-accounting.service.ts:520-603 | fails only for a missing claim or a prize that does not balance; afterwards the claim has exactly one accrual journal, live or back-filled, and nothing else about it has changed |
| RefundsInv.CollectionPosted | apps/api/src/ledger/payment-accounting.service.ts:26-169 | a first collection posts the right lines under a free key and keeps the invariant |
| RefundsInv.AccrualPosted | apps/api/src/ledger/payment-accounting.service.ts:171-296 | accruing posts once and keeps the invariant |
| RefundsInv.SettlementPosted | apps/api/src/ledger/payment-accounting.service.ts:298-430 | settling fails exactly without an accrual (or for agent cash) and otherwise settles once |
| RefundsMoney.CollectionMoves | apps/api/src/ledger/payment-accounting.service.ts:26-169 | a collection debits the clearing account of the provider that took the money, account by account, and credits revenue or suspense |
| RefundsMoney.AccrualMoves | apps/api/src/ledger/payment-accounting.service.ts:171-296 | an accrual takes the amount off revenue or suspense and owes it |
| RefundsMoney.SettlementMoves | apps/api/src/ledger/payment-accounting.service.ts:298-455 | a settlement pays what is owed out of the payout account of the provider, account by account |
| RefundsMoney.BackfillMoves | apps/api/src/migration/phase8-migration.service.ts:735-934 | key and accounts of a back-filled collection for every gateway |
| RefundsRuns.ConfirmKeepsInv | apps/api/src/payments/purchase-confirmation.service.ts:127-200 | purchase confirmation moves only pending payments and keeps the invariant |
| RefundsMoney.VerifyIs | apps/api/src/payments/purchase-confirmation.service.ts:127-200 | verification acts exactly on a pending payment; the row and the journal for each outcome |
| RefundsMoney.IntendIff | apps/api/src/migration/phase8-migration.service.ts:704-741 | what the migration decides on, from the row it reads: what to collect and where, to accrue, to settle |
| RefundsRuns.ReserveKeepsInv | apps/api/src/admin-ops/payment-refund.service.ts:268-565 | reserving a refund keeps the invariant and never meets a used key |
| RefundsConditions.RefundStartsIff | apps/api/src/admin-ops/payment-refund.service.ts:268-565 | a reservation changes the tables exactly for a payment never refunded, confirmed or held, online, known to its provider, without a ticket of value and out of the reach of the engine; and what it writes |
| RefundsConditions.StepStartsRefundIff | apps/api/src/admin-ops/payment-refund.service.ts:268-565 | no step but such a reservation starts a refund or accrues one |
| RefundsConditions.NeverPaidNeverRefunded | apps/api/src/admin-ops/payment-refund.service.ts:311-328 | in any run a payment never confirmed nor held for review has no refund, no call to its provider and no accrual |
| RefundsRuns.ApplyKeepsInv | apps/api/src/admin-ops/payment-refund.service.ts:1048-1168 | applying any provider result keeps the invariant |
| RefundsMoney.ResultMattersIff | apps/api/src/admin-ops/payment-refund.service.ts:1048-1168 | a provider result changes the row exactly while the refund is under way and it comes from the provider that was asked |
| RefundsMoney.SuccessIs | apps/api/src/admin-ops/payment-refund.service.ts:1170-1272 | a believed success of an accrued refund: refunded, settled, quarantined tickets expired |
| RefundsRuns.BackfillKeepsInv | apps/api/src/migration/phase8-migration.service.ts:735-934 | back-filling a collection keeps the invariant |
| RefundsRuns.StepKeepsInv | apps/api/src/admin-ops/payment-refund.service.ts:169-839 | every step of the refund flows, of the migration, and every crash keeps the invariant |
| RefundsLaws.PayableIsWhatIsOwed | apps/api/src/ledger/payment-accounting.service.ts:171-430 | in every run the refund payable is exactly what is accrued and not settled, failed refunds included; settlement follows accrual, accrual follows collection |
| RefundsLaws.SentAtMostOnce | apps/api/src/admin-ops/payment-refund.service.ts:605-724 | no interleaving tells a provider twice to send the same money |
| RefundsOnce.StepKeepsUnique | apps/api/src/ledger/payment-accounting.service.ts:26-430 | no step of any refund flow or back-fill posts a second journal under a key |
| RefundsOnce.PostedAtMostOnce | apps/api/src/migration/phase8-migration.service.ts:704-1259 | in every interleaving each payment has at most one collection, one accrual and one settlement journal, counted over live and back-filled keys together, exactly when linked; no settlement without accrual, no accrual without collection |
| RefundsLaws.EffectOfRefund | apps/api/src/ledger/payment-accounting.service.ts:26-430 | effect of a settled refund on every account |
| RefundsLaws.RefundIsNeutralIff | apps/api/src/ledger/payment-accounting.service.ts:171-296 | revenue and suspense are untouched exactly when the accrual took from the account the collection had credited; then only clearing accounts move |
| RefundsHistory.ResultsAreFinal | apps/api/src/admin-ops/payment-refund.service.ts:1178-1436 | succeeded and failed refunds stay so through every later result |
| RefundsHistory.QuarantineIsForEver | apps/api/src/admin-ops/payment-refund.service.ts:543-563 | a ticket taken out of the pool never becomes active again |
| RefundsHistory.SuccessCompletesIff | apps/api/src/admin-ops/payment-refund.service.ts:1178-1272 | a confirmed success completes a refund exactly when it was accrued, and otherwise changes nothing |
| RefundsHistory.PaystackWaitsForBackfill | apps/api/src/admin-ops/payment-refund.service.ts:519-541 | a Paystack refund is never completed before the migration has back-filled its accrual |
| RefundsMatching.SourceReadsBack | apps/api/src/migration/phase8-migration.service.ts:3475-3534 | the account read back from a collection is the one it credited |
| RefundsMatching.StepKeepsSources | apps/api/src/migration/phase8-migration.service.ts:1132-1175 | a pending back-fill names the account its collection credited |
| RefundsMatching.StaysMatchedIff | apps/api/src/admin-ops/payment-refund.service.ts:425-541 | a payment stays matched through any step, except exactly when a refund is reserved against the disposition of its collection |
| RefundsMatching.MigratedThenRefunded | apps/api/src/migration/phase8-migration.service.ts:735-741 | a run in which the migration and a later refund use different accounts |
| RefundService.PaymentRefundService.Initiate | apps/api/src/admin-ops/payment-refund.service.ts:268-565 | commits the specified reservation or throws and changes nothing, rolling back what it had posted; the tables stay sound |
| RefundService.PaymentRefundService.HasValuableTicket | apps/api/src/admin-ops/payment-refund.service.ts:336-350 | finds a winning or rolled-over ticket exactly when there is one |
| RefundService.PaymentRefundService.ApplyProviderResult | apps/api/src/admin-ops/payment-refund.service.ts:1048-1168 | mismatched amounts or currencies are not believed; the result is applied as specified |
| RefundService.PaymentRefundService.CredibleStatus | apps/api/src/admin-ops/payment-refund.service.ts:1048-1168 | a success is believed exactly for the right amount in naira |
| RefundService.PaymentRefundService.MarkSucceeded | apps/api/src/admin-ops/payment-refund.service.ts:1170-1272 | guarded completion with settlement and ticket expiry, all or nothing |
| RefundService.PaymentRefundService.MarkFailed | apps/api/src/admin-ops/payment-refund.service.ts:1318-1358 | a failed refund stays owed and its tickets stay quarantined; a refund that has ended is not touched |
| RefundService.PaymentRefundService.MarkPending | apps/api/src/admin-ops/payment-refund.service.ts:1404-1437 | news of a refund under way moves no money and no ticket and cannot reopen one that has ended |
| RefundService.PaymentRefundService.RecordProviderCollection | apps/api/src/ledger/payment-accounting.service.ts:26-169 | only agent cash is refused; afterwards the payment has exactly one collection journal, and only its link has changed |
| RefundService.PaymentRefundService.RecordRefundAccrual | apps/api/src/ledger/payment-accounting.service.ts:171-296 | on a collected payment never fails; afterwards there is exactly one accrual and the amount owed has grown by a new one |
| RefundService.PaymentRefundService.RecordRefundSettlement | apps/api/src/ledger/payment-accounting.service.ts:298-430 | refused exactly without an accrual or for agent cash; afterwards there is exactly one settlement and the amount is no longer owed |
| Migration.Phase8MigrationService.Apply | apps/api/src/migration/phase8-migration.service.ts:222-345 | an apply is refused, or handles every item in the order of the kinds whatever the batch size and records how it ended, or is marked as failed when the database fails, having stopped at some item |
| Migration.Phase8MigrationService.DrainKind | apps/api/src/migration/phase8-migration.service.ts:276-316 | draining in batches equals handling the pending items once each, in order, up to a failure |
| Migration.Phase8MigrationService.FindBatch | apps/api/src/migration/phase8-migration.service.ts:280-299 | a batch is the first pending items of its kind |
| Migration.Phase8MigrationService.Retry | apps/api/src/migration/phase8-migration.service.ts:347-403 | failed items, and on request those in review, become pending and are applied, also after a failed run |
| Migration.Phase8MigrationService.Finalize | apps/api/src/migration/phase8-migration.service.ts:405-501 | finalising succeeds exactly when every item is applied or skipped and the audit finds nothing |
| Migration.DrainKindsIs | apps/api/src/migration/phase8-migration.service.ts:272-316 | an apply leaves nothing pending and touches only pending items |
| Migration.ApplyFollowsTheAgenda | apps/api/src/migration/phase8-migration.service.ts:37-46 | the work of an apply is that of the items pending at its start, kind after kind |
| MigrationOrder.AppliesInStages | apps/api/src/migration/phase8-migration.service.ts:37-46 | an apply handles what is pending stage by stage, in the order collections, fundings, refunds, accruals, payouts, remittances, wallets, payout histories |
| MigrationOrder.ApplyCollectsThenRefunds | apps/api/src/migration/phase8-migration.service.ts:272-316 | after a complete apply a payment with both items pending is collected, its started refund accrued, a succeeded one settled, and neither item is in review or failed |
| MigrationOrder.ApplyPostsEachOnce | apps/api/src/migration/phase8-migration.service.ts:272-316 | and its collection, accrual and settlement are each posted exactly once |
| MigrationOrder.RefundFirstNeedsReview | apps/api/src/migration/phase8-migration.service.ts:1132-1147 | handled before its collection a refund is sent to review and nothing is posted |
| MigrationOrder.CollectionItemEnds | apps/api/src/migration/phase8-migration.service.ts:586-705 | a collection item ends applied, skipped or in review, exactly when |
| AgentMoney.PrizeOrderIsImmaterial | apps/api/src/migration/phase8-migration.service.ts:1255-1478 | accruing a prize before or after its back-filled payout leaves the same tables |
| WalletMigration.FundsFirst | apps/api/src/migration/phase8-migration.service.ts:952-1090 | funding a wallet before its legacy balance is migrated can only cover more |
| Migration.CrashIsInvisible | apps/api/src/migration/phase8-migration.service.ts:586-646 | an apply that stops between two items or after any transaction of one, and is applied again, ends with the tables and statuses of an uninterrupted one |
| Migration.CampaignIsCalm | apps/api/src/migration/phase8-migration.service.ts:222-403 | any sequence of applies and retries, each dying any number of times anywhere and applied again, ends like the same calls without a crash |
| MigrationDispatch.PaymentsAreRestartable | apps/api/src/migration/phase8-migration.service.ts:704-1259 | a collection or refund item taken up again after any of its transactions comes out as if it had gone through at once, from any reachable state |
| MigrationDispatch.CollectedThenAccrued | apps/api/src/migration/phase8-migration.service.ts:1132-1175 | no accrual without a linked collection; in the order of the kinds every refund is accrued and settled as due |
| MigrationDispatch.CollectionGoes | apps/api/src/migration/phase8-migration.service.ts:735-741 | a back-filled collection goes into suspense for a payment held for review or without tickets and otherwise into revenue |
| MigrationDispatch.PaymentCrashesAreInvisible | apps/api/src/migration/phase8-migration.service.ts:222-646 | any applies and retries of the payment part, dying any number of times, also between accrual and settlement, end like the same calls without a crash |
| MigrationOnce.MigratedExactlyOnce | apps/api/src/migration/phase8-migration.service.ts:222-646 | after any applies and retries, complete or cut off anywhere and in any order, no payment has a second journal of a kind, and an applied or skipped item has its journals exactly once |
| MigrationOnce.FailedStatusIsHarmless | apps/api/src/migration/phase8-migration.service.ts:602-646 | an item marked as failed because its status could not be written after its work keeps the tables sound, and comes out the same once retried |
| WalletMigration.Phase8MigrationService.Reconcile | apps/api/src/migration/phase8-migration.service.ts:1630-1684 | days the company owed less days received from the wallet |
| WalletMigration.Phase8MigrationService.PostRow | apps/api/src/migration/phase8-migration.service.ts:1708-1895 | one row in one transaction, skipped if already posted, refused if the wallet cannot pay |
| WalletMigration.Phase8MigrationService.MigrateAgentWallet | apps/api/src/migration/phase8-migration.service.ts:1578-1923 | unreconciled histories post nothing; a reconciled one completes exactly when every missing debit is covered by what precedes it; what each outcome has posted |
| WalletMigration.ValueIsConserved | apps/api/src/migration/phase8-migration.service.ts:1671-1923 | after success the ledger holds exactly the stored balance, over this and all earlier runs |
| WalletMigration.PartialRunKeepsBooks | apps/api/src/migration/phase8-migration.service.ts:1695-1895 | a stopped run has added to the wallet exactly what it marked as posted |
| WalletMigration.RerunNeedsReviewIff | apps/api/src/migration/phase8-migration.service.ts:1671-1684 | run again after success, an item is sent to review unless the balance was zero |
| WalletMigration.DebitBeforeItsCredit | apps/api/src/migration/phase8-migration.service.ts:1695-1895 | a reconciled history that is refused because a debit precedes its credit |
| DrawMath.ComputeMerkleRoot | apps/engine/src/draw-math.utils.ts:10-24 | the level loop terminates; the root is what the levels lead up to from the hashed participants, left before right, a last one with itself; and it is the root of the tree |
| DrawMath.HashLevel | apps/engine/src/draw-math.utils.ts:14-22 | one level of the loop: neighbours hashed in order, a last one with itself |
| DrawMath.LeafIsNotNode | apps/engine/src/draw-math.utils.ts:13-21 | a leaf text is never a node text |
| DrawMath.MerkleBinding | apps/engine/src/draw-math.utils.ts:10-24 | equal roots of two pools of distinct identifiers mean the same pool, of whatever lengths, or an explicit collision |
| DrawMath.SizeAndRootBind | apps/engine/src/draw-math.utils.ts:10-24 | equal roots of two pools of one size mean the same pool, whatever repeats in it, or an explicit collision |
| DrawMath.RootsAgreeIff | apps/engine/src/draw-math.utils.ts:14-22 | two pools have one root exactly when the duplications fill them up to the same list, short of a collision |
| DrawMath.RootAloneBindsIff | apps/engine/src/draw-math.utils.ts:18 | a pool is the only one that fills up to its list exactly when no other number of first ids of that list fills up to it again |
| DrawMath.RepeatedIdIsAmbiguous | apps/engine/src/draw-math.utils.ts:18 | a pool of three ids and the same with the last one repeated have one root |
| DrawMath.RepeatedPairIsBound | apps/engine/src/draw-math.utils.ts:18 | a repeat need not be ambiguous: a pool of two equal ids is bound by its root |
| DrawMath.EmptyRoot | apps/engine/src/draw-math.utils.ts:11 | the root of the empty pool is also that of a pool with the one identifier EMPTY, and of no other, short of a collision |
| DrawMath.DeterministicWinnerIndex | apps/engine/src/draw-math.utils.ts:28-51 | the index is the remainder of the first word below the greatest multiple of the pool size, every earlier word being at or above it; 0 for one participant, an error for none |
| DrawMath.WinnerIs | apps/engine/src/draw-math.utils.ts:28-51 | the same of the function that results are checked with |
| DrawMath.CountResidue | apps/engine/src/draw-math.utils.ts:39-48 | each residue is hit equally often below a multiple of n |
| DrawMath.FirstWordDecides | apps/engine/src/draw-math.utils.ts:43-50 | whatever follows, a stream that starts with an accepted word gives the index of that word |
| DrawMath.SamplerIsUniform | apps/engine/src/draw-math.utils.ts:39-50 | each index is what the sampler returns at once for exactly floor(2^64/n) first words, and fewer than n words are rejected |
| DrawRuns.StepMovesOn | apps/engine/src/lifecycle.service.ts:52-92 | no step lowers a draw's rank or rewrites a commitment or a result, not even a stale cancellation |
| DrawRuns.RunMovesOn | apps/engine/src/execution.service.ts:81-257 | the same over every run from any state |
| DrawConditions.StatusChangesAsStated | apps/engine/src/lifecycle.service.ts:52-92 | the status of every draw after every step: when it opens, closes, is claimed, completes and is cancelled |
| DrawConditions.CommitIff | apps/engine/src/seed-commit.service.ts:39-84 | a commitment is written exactly on a draw without one |
| DrawConditions.PurchaseIff | apps/api/src/payments/purchase-confirmation.service.ts:127-200 | a purchase sells exactly into an active draw before its cutoff, and what it writes |
| DrawConditions.AskingIff | apps/api/src/draws/draws.service.ts:203-213 | from which statuses a draw can be cancelled and sold into |
| DrawConditions.ReservationIff | apps/api/src/admin-ops/payment-refund.service.ts:311-423 | when a refund is reserved, and what it quarantines |
| DrawRuns.StepKeepsCore | apps/engine/src/execution.service.ts:81-221 | every step keeps: one claim per draw, pools in range, commitments behind open draws and sold tickets |
| DrawWinners.ClaimedOnceAndCommitted | apps/engine/src/execution.service.ts:81-87 | in every run each draw is claimed at most once, and every open draw and sold ticket has a commitment |
| DrawWinners.StepKeepsFair | apps/engine/src/execution.service.ts:81-221 | every step keeps: pools of distinct participants of their own draw, marks only on the participant a result names, results that open to the locked pool |
| DrawWinners.OneWinnerPerDraw | apps/engine/src/execution.service.ts:185-221 | in every run a draw with a result has exactly one marked ticket or entry, the one the result names, and a draw without has none |
| DrawWinners.DrawsAreFair | apps/engine/src/execution.service.ts:81-221 | each result verifies against the pool one engine locked: every live ticket and, for a jackpot draw, every live entry at the two queries, in order, each identifier once |
| DrawWinners.PublishedRootBindsPool | apps/engine/src/execution.service.ts:132-192 | a list with the published root that has no repeats or the published number of participants is the list drawn from, in order, or two hashed texts collide |
| DrawWinners.FreshResultOpens | apps/engine/src/execution.service.ts:132-221 | a result the engine writes verifies against the pool it holds, and the selected participant carries the mark |
| DrawWinners.WinnerCanBeRecomputed | apps/engine/src/execution.service.ts:153-178 | the winner of a verified result is the participant at the remainder of the first accepted word |
| DrawRefunds.StepKeepsInv | apps/api/src/admin-ops/payment-refund.service.ts:352-423 | every step keeps winners and refunds apart, but for a cancellation written under the engine |
| DrawRefunds.ReserveKeepsExcl | apps/api/src/admin-ops/payment-refund.service.ts:352-423 | a reservation never takes a ticket out from under the engine |
| DrawRefunds.NoWinnerIsRefunded | apps/api/src/admin-ops/payment-refund.service.ts:352-563 | no winning ticket is refunded or being refunded, and no refunded ticket is in a pool, in every interleaving |
| DrawCancellation.StepHurtsIff | apps/engine/src/execution.service.ts:185-221 | the one step that refunds a winner is the engine publishing a ticket whose refund has been started |
| DrawCancellation.WinnerIsHurtIff | apps/api/src/draws/draws.service.ts:203-223 | in any run, stale cancellations included, a winner is refunded exactly when some step published such a ticket |
| DrawCancellation.ReservationTouchesPoolIff | apps/api/src/admin-ops/payment-refund.service.ts:352-423 | in any run a reservation takes a live ticket of a draw at work exactly when it is of that payment and refundable, and then the draw was cancelled under the engine |
| DrawCancellation.AtomicCancellationsAreSafe | apps/api/src/draws/draws.service.ts:203-223 | with cancellations that read and write in one step no run refunds a winner |
| DrawRefunds.GuardedCancelIsSafe | apps/api/src/draws/draws.service.ts:203-223 | a cancellation that checked and wrote in one step would never meet an engine at work |
| DrawRefunds.WinnerRefunded | apps/api/src/draws/draws.service.ts:203-223 | a run with a stale cancellation that ends with a winner refunded |
| DrawService.EngineService.Transition | apps/engine/src/lifecycle.service.ts:82-92 | the guarded update and its count |
| DrawService.EngineService.ActivateCommittedDraws | apps/engine/src/lifecycle.service.ts:52-64 | exactly the committed draws before their cutoff open |
| DrawService.EngineService.CloseSalesAtCutoff | apps/engine/src/lifecycle.service.ts:66-77 | exactly the draws past their cutoff close |
| DrawService.EngineService.CommitSeeds | apps/engine/src/seed-commit.service.ts:39-84 | every open draw without a commitment gets one; none is replaced |
| DrawService.EngineService.ClaimDraw | apps/engine/src/execution.service.ts:81-87 | the claim succeeds exactly for a closed draw that is due |
| DrawService.EngineService.FinishExecution | apps/engine/src/execution.service.ts:124-221 | root, seed check, selection, result, winner and status as specified; an empty pool cancels |
| DrawService.EngineService.Execute | apps/engine/src/execution.service.ts:81-221 | an uninterrupted execution is the specified one |
| AuditChain.RootTextInjective | apps/api/src/audit/audit-checkpoint.service.ts:54-58 | the text of a root determines its digests and what it is chained to |
| AuditChain.RootTextIs | apps/api/src/audit/audit-checkpoint.service.ts:54-58 | what a root hashes, written out: its predecessor or GENESIS, then the digests in order |
| AuditChain.EntryTextIs | apps/api/src/audit/audit-checkpoint.service.ts:26-52 | what an entry digest hashes, written out field by field |
| AuditChain.AppendKeepsChain | apps/api/src/audit/audit-checkpoint.service.ts:63-108 | an append above all sequence numbers keeps the sealed windows |
| AuditChain.SealKeepsChain | apps/api/src/audit/audit-checkpoint.service.ts:63-108 | sealing adds one linked, disjoint window that ends at the last entry |
| AuditChain.AuditCheckpointService.Append | apps/api/src/audit/audit-checkpoint.service.ts:60-62 | a late entry belongs to the next window |
| AuditChain.AuditCheckpointService.Seal | apps/api/src/audit/audit-checkpoint.service.ts:63-123 | seals the entries above the last sealed number, or nothing: first and last number, count, root and predecessor |
| AuditChain.AuditCheckpointService.Verify | apps/api/src/audit/audit-checkpoint.service.ts:127-190 | recomputes every window and counts the broken ones |
| AuditChain.EveryEntryInOneWindow | apps/api/src/audit/audit-checkpoint.service.ts:63-108 | every entry up to the last sealed number lies in exactly one window |
| AuditChain.UntouchedLogIsIntact | apps/api/src/audit/audit-checkpoint.service.ts:127-190 | an untouched log verifies throughout |
| AuditChain.VerifyLocatesTampering | apps/api/src/audit/audit-checkpoint.service.ts:140-175 | a window is reported intact exactly when its digests are those sealed, short of a collision; no other window matters |
| AuditChain.LatestRootBindsHistory | apps/api/src/audit/audit-checkpoint.service.ts:54-58 | two chains with the same latest root have sealed the same digests, or two root texts collide |
| AuditChain.DigestBindsEntry | apps/api/src/audit/audit-checkpoint.service.ts:26-52 | an entry digest determines the entry when one entry has no separator in its free text and the metadata agree, or when both have none, short of a collision |
| AuditChain.TextIdentifiesIff | apps/api/src/audit/audit-checkpoint.service.ts:26-52 | among entries with the same metadata the hashed text identifies an entry exactly when none of its free-text fields holds the separator |
| AuditChain.SeparatorIsAmbiguous | apps/api/src/audit/audit-checkpoint.service.ts:26-52 | two different refund entries with one text and one digest |
| Jackpot.NextOfferIsNextMultiple | apps/api/src/payments/jackpot-accumulation.service.ts:13-20 | count plus the distance is the next multiple of ten |
| Jackpot.CreateMany | apps/api/src/payments/jackpot-accumulation.service.ts:139-177 | inserts the missing thresholds of a range and counts them |
| Jackpot.JackpotAccumulationService.RecordDailyPurchase | apps/api/src/payments/jackpot-accumulation.service.ts:32-243 | the counter and offer tables after a purchase, and what it reports |
| Jackpot.PurchaseTouches | apps/api/src/payments/jackpot-accumulation.service.ts:56-131 | a purchase touches its own buyer and the open draw only; without an open jackpot it counts for the lifetime only |
| Jackpot.LifetimeIsAllBought | apps/api/src/payments/jackpot-accumulation.service.ts:56-131 | over any run the lifetime count is the number of tickets bought |
| Jackpot.PurchaseKeepsPrefix | apps/api/src/payments/jackpot-accumulation.service.ts:98-177 | offers stay 1..k without gap whatever stale row was read, and none is withdrawn |
| Jackpot.PrefixesKeptIff | apps/api/src/payments/jackpot-accumulation.service.ts:98-177 | a purchase keeps the offers gap-free exactly when it does not jump over one, whatever the counters |
| Jackpot.PrefixesInRunIff | apps/api/src/payments/jackpot-accumulation.service.ts:98-177 | the same over every run: gap-free after every purchase exactly when no purchase jumped |
| Jackpot.InvariantKeptIff | apps/api/src/payments/jackpot-accumulation.service.ts:98-177 | the counter stays in step with the offers exactly when the purchase does not skip one in a moved cycle |
| Jackpot.OffersArePrefixesInEveryRun | apps/api/src/payments/jackpot-accumulation.service.ts:98-177 | over every run of concurrent purchases that skip no offer in a moved cycle, offers are 1..k and every row that was read stays plausible |
| Jackpot.ExactKeptIff | apps/api/src/payments/jackpot-accumulation.service.ts:98-177 | when the offers are exactly one per ten tickets after a purchase |
| Jackpot.ExactInRunIff | apps/api/src/payments/jackpot-accumulation.service.ts:98-177 | over every run with stale reads, every buyer has one offer per ten tickets after every purchase exactly when each purchase kept its own count |
| Jackpot.StaleBatching | apps/api/src/payments/jackpot-accumulation.service.ts:98-177 | once in a cycle, purchases in any batches, with reads as stale as the cycle and interleaved with anybody else, count every ticket and leave exactly floor(count/10) offers |
| Jackpot.MovedCycleLosesAnOffer | apps/api/src/payments/jackpot-accumulation.service.ts:75-131 | a run in which a second offer is issued and the first never is |
| Jackpot.BatchingIsIrrelevant | apps/api/src/payments/jackpot-accumulation.service.ts:98-177 | within a cycle only the number of tickets decides the offers |
| BusinessDay.ImplementationsAgree | apps/worker/src/wat-day.util.ts:10-36 | the worker's window is the API's window for its period date, and holds the instant |
| BusinessDay.WindowIsUnique | apps/api/src/common/sales-window.util.ts:20-32 | an instant lies in no second window |
| BusinessDay.FiledWhereItLies | apps/worker/src/wat-day.util.ts:10-36 | an instant lies in the window of a date exactly when it is filed under that date |
| BusinessDay.LastClosedIsLatest | apps/worker/src/wat-day.util.ts:41-45 | the sealed day is the latest one that has ended |
| BusinessDay.SealedForOneDay | apps/worker/src/wat-day.util.ts:41-45 | a day is the one to seal in the 24 hours after its close and at no other time |
| SweepDays.FiledIff | apps/worker/src/remittance-sweep.service.ts:78-306 | over any run of ticks an agent has a record for a day exactly when some tick of the 24 hours after its close found the agent active on it |
| SweepDays.DowntimeLosesTheDay | apps/worker/src/remittance-sweep.service.ts:28-36 | without a tick in those 24 hours the day is never filed, for any agent |
| SweepDays.MissedDay | apps/worker/src/remittance-sweep.service.ts:28-36 | a run of two ticks that leaves a day with a sale unfiled |
| BusinessDay.MovedCloseBreaksTiling | apps/worker/src/wat-day.util.ts:3-5 | moving the close leaves a gap or an overlap, and only then |
| BusinessDay.DaysAddUp | apps/api/src/common/sales-window.util.ts:20-32 | sealed days add up to the sales of their span |

## Left out

- Controllers, DTO validation, guards, authentication, queues, SMS and e-mail, the apps, reports and list views.
- Provider HTTP calls, and with them the mapping of raw provider statuses: the normalised result is an arbitrary input.
- Cryptography itself: hashing, HMAC, sealing of seeds and signatures are parameters. A seed that fails to unseal is a crash.
- Wallet holds, funding and purchases, the payout engine, payout reconciliation and the prize payout history of the migration.
- The other migration kinds are not dispatched item by item: their journals are covered as steps in `RemittanceRuns` and `AgentMoney`, where a crash may fall between any two of them.
- Dates of journals, names and other descriptive columns, and the audit records the services write along the way.
- Json.Less: orders UTF-16 code units as Dafny characters; JavaScript lists integer-like keys first and `localeCompare` orders by locale, and any fixed total order serves the theorems.
- Json.Stringify: covers strings, integers, booleans, null, arrays and objects; not fractions, `undefined` or dates inside metadata.
- RemittanceSweep.RecordOf: multiplies with exact reals; the source multiplies doubles, whose rounding may move the floor by one.
- RemittanceSweep.RemittanceSweepService.Tick: the commission of a record is that of `RecordOf`.
- RemittanceSweep.RemittanceSweepService.FileDay: the commission of a record is that of `RecordOf`.
- RemittanceRuns.DayNetsToZero: which sales and prizes make up a row is given, not derived from the sweep's queries; `ReceivableIsClear` does without.
- WalletMigration.Phase8MigrationService.PostRow: a journal is a flag on its row and the wallet account a number, moved by this migration alone.
- WalletMigration.Phase8MigrationService.MigrateAgentWallet: the same tables as `PostRow`.
- Migration.CampaignIsCalm: a retry right after a crash may handle the torn item after others, so the journals can come in another order; `MigrationOnce` covers it.
- Idempotency keys of the flows are pairs of purpose and row instead of strings; ledger keys themselves are strings.
- Upper-casing of agent identifiers in account codes: identifiers are taken to differ in more than case.
- The status WRITTEN_OFF of a remittance and POSTPONED of a draw are never written by the code, so no step writes them.
- DrawEngine.Finish: the breakdown of tickets by state of play, the prize columns and the signature of a result.
- Editing a scheduled draw, draw codes and schedule checks.
- AuditChain.DigestBindsEntry: for entries whose metadata differ, both are asked to be free of the separator; metadata are any text in the model.
- Json.Canonicalize: an own key `__proto__` in metadata, which the source's assignment drops; no caller writes one.
- Migration.Phase8MigrationService.Apply: an item marked as failed because its status could not be written; `MigrationOnce.FailedStatusIsHarmless` treats it by itself.
- MigrationOnce.MigratedExactlyOnce: the payment kinds, with no live step in between; `RefundsOnce`, `RemittanceRuns` and `AgentMoney` have the interleavings.
- Two processes sealing the audit log at once, which the service's `running` flag excludes only within one process.
- Prisma's retry on a serialisation failure: a retried transaction is the same step taken later.
