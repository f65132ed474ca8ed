# Splitcore money engine: a Dafny model

Guests tip at a venue; the tip is divided between an entertainer, the venue and the platform by the venue's split
rule; the shares are owed on a double-entry ledger until a transfer provider has delivered them. This project models
that path end to end and proves what the code's own comments promise about it:

- **Ledger** (`Ledger`, `Rounding`, `LedgerRepository`, `LedgerRows`): shares in basis points, balanced postings,
  find-or-create accounts, balances from grouped sums.
- **Tables** (`Tables`, `TablesInvariant`): payments, payouts and the posting journal, each database transaction as a
  function on them, and the agreement between ledger, payments and payouts that every transaction keeps.
- **Protocol** (`Protocol`, `Safety`, `SingleTransfer`, `Payees`, `Guarantees`, `PayoutLife`, `Completion`,
  `Concurrency`): settlement, payout processing and transfer events as workers with program counters. Every read, provider
  call, conditional update and transaction is a step of its own; any number of workers interleave; any of them may crash
  at any point.
- **Split rules** (`SplitRules`, `SplitRuleHistory`, `Snapshots`): proposals, overrides and answers, the intervals the
  rules were in force, the audit trail, and the rule a payment is divided by.
- **Onboarding and destinations** (`Names`, `Onboarding`, `OnboardingCalls`, `OnboardingCases`, `Destinations`): the two
  onboarding state machines, one call after the other and with calls that overlap; the gate that decides where a payout
  goes, and the sweep that mirrors it.
- **Webhooks** (`Webhooks`): deliveries, job attempts and status polls in any order, while the charge moves.
- **Reconciliation** (`Reconciliation`): the report, each of its figures read at a moment of its own.
- **Cases** (`PayoutCases`, `SettlementCases`, `OnboardingCases`): what each operation must come to, by status, report,
  event and number of attempts, with the statuses, currency, limits and ledger lines written out.
- **Services** (`Store`, `PayoutOutcomes`, `Payouts`, `Payments`, `WebhookServices`, `OnboardingServices`, and the
  classes in `SplitRules` and `LedgerRepository`): the imperative code. `Store.Database` has one method per query,
  conditional update, transaction and provider call. A method of the payout and payment services may call these only in
  the order the protocol allows, between any two of them anything else may happen (`Elsewhere`), and each call is proved
  to be one complete run of the protocol's worker; so everything proved about runs holds for them. A method called on a
  ghost worker id `w` is one run of that worker. The split-rule and onboarding services keep a ghost log of their
  operations, or of the reads and writes of their calls, and `Valid()` says that the tables are what that log leads to;
  so what is proved about such runs holds for them. `LedgerRepository` is proved against the journal on its own. With
  `alone` set nobody else acts, and the contracts then give the exact new state.

Rows are addressed by their position. A payout's transfer reference is the pair (payout, attempt);
`References.ReferencesAreInjective` is why that is no simplification. Lemmas about recursive functions switch automatic
induction off, so each proof is the one that is written.

## Assumptions

- A database transaction, or a single conditional update, is one atomic step. Split-rule transactions do not overlap
  each other; the link lookup that precedes an answer may be arbitrarily old.
- The transfer provider applies a transfer atomically per reference: before the call returns, before it throws, or
  never. A second initiation with a known reference reports the first one. Failed and returned transfers are final; a
  delivered one may only be returned.
- A success event is sent only for a transfer that was delivered, but may arrive late, twice or out of order. Failed and
  reversed events are not trusted at all. A charge once reported paid stays paid.
- A recipient code stands for one bank account for good; an answer that breaks this counts as an exception.
- Only where a result says `serial` or `Run(true, ...)`: the queue runs at most one job per payout at a time.
  `Concurrency.OverlappingRunsPayTwice` shows that the single-transfer result needs this.
- The unguarded FAILED write after a failed checkout happens before anybody settles that reference.
- The database refuses a confirmation on a row whose resolved name is missing: the constraints
  `entertainers_confirmed_implies_resolved` and `venues_confirmed_implies_resolved`
  (`prisma/migrations/20260926160000_entertainer_kyc_and_access/migration.sql:25-28`,
  `prisma/migrations/20260927200000_venue_payout_account/migration.sql:15-18`). The call throws and writes nothing.
- The clock does not go backwards (split-rule intervals).
- A job whose attempts are used up is retained under its id for a week on the webhook queue, and adding a job under an
  id the queue still knows does nothing. A queue call that threw may have added its job all the same.

Where code and comments disagree the code is followed:

- a success event processed after a reversal makes a payout SUCCESS again;
- a poll never settles a payment that is FAILED although a webhook does;
- a stored event can be forgotten for a week when its last attempt fails (`Webhooks.ForgottenAfterOutage`), and for good
  when it is handled before the provider reports the charge paid (`Webhooks.HandledTooEarly`; `Webhooks.FirstReportDecides`
  says exactly when);
- overlapping onboarding calls can leave an account confirmed under another account's name, or an unconfirmed account
  VERIFIED (`OnboardingCalls.OverlappingKycIsSound` says exactly when not);
- an account that is confirmed and then refused by the bank stays confirmed, and is paid
  (`Destinations.SentAfterRefusal`; `Onboarding.KycStaysCurrent` says exactly when the bank's latest answer is a name);
- a reconciliation report can show a drift that was never there (`Reconciliation.TornReportIsReachable`);
- the sweep would enqueue a held payout whose owner id also is a payable id of the other kind
  (`Destinations.HeldIsEnqueuedOnlyByCollision`);
- a posting mixing a missing with an empty owner of one type would write both lines to one account
  (`LedgerRepository.LinesLandOnTheirAccounts`).

## Model

| member | source | states |
|---|---|---|
| SingleTransfer.NoObligationIsPaidTwice | src/payouts/payouts.service.ts:62-185 | With serial runs, under any crashes and any order of events: at most one reference of a payout is pending, awaiting action or successful at the provider, it is the current one and moves exactly the amount owed, and what was delivered never exceeds the obligation |
| Concurrency.OverlappingRunsPayTwice | src/payments/payment-settlement.service.ts:39-51 | Without one job per payout at a time the guarantee fails: a concrete run leaves two live transfers for one obligation |
| SingleTransfer.ReachableSerial | src/payouts/payouts.service.ts:76-145 | The invariant behind it in every reachable state: before a claim the previous attempt is known dead, between claim and initiation nothing was sent, a live transfer is the current one |
| Payees.TransfersGoWhereTheGateSaid | src/payouts/payouts.service.ts:101-167 | Every transfer of every run goes to the account which resolving the destination answered to the run that claimed this attempt, between that answer and the claim; later changes of the bank details redirect nothing |
| Payees.ToldOnce | src/payouts/payouts.service.ts:125-143 | The account an attempt may be paid to is unique, although several runs may have been answered at once |
| Store.EntertainerVerdict | src/payouts/payouts.service.ts:217-246 | The account a run is told to pay is the pair the bank last named a holder for, after a name was accepted, and it is given under the legal name |
| Store.VenueVerdict | src/payouts/payouts.service.ts:248-272 | The same for a venue, under the name the bank gave |
| Guarantees.LedgerAgreesWithPayouts | src/payouts/payouts.service.ts:33-47 | Under any interleaving the balance of each payable account is the sum of its payouts that are not SUCCESS, and never negative |
| Guarantees.PostedExactlyOnce | src/payouts/payouts.service.ts:328-359 | Payout postings minus reversals is 1 exactly while the payout is SUCCESS; each is the payout's own account and amount; SUCCESS implies the provider once reported the current reference successful |
| Guarantees.SettledExactlyOnce | src/payments/payment-settlement.service.ts:130-159 | A SUCCESS payment has exactly one settlement posting, the division by its own rule, and one payout per payable credit with the same account and amount, and was paid in full; any other payment has none |
| Guarantees.SettlementIsFinal | src/payments/payment-settlement.service.ts:16-17 | SUCCESS is never left, its division and its settlement posting never change, and no posting is ever lost |
| SettlementCases.SettledMeansPaid | src/payments/payment-settlement.service.ts:106-123 | In every run a SUCCESS payment was paid its own amount, in naira or with no currency named, and has a rule |
| SettlementCases.RightSuccessSettles | src/payments/payment-settlement.service.ts:125-159 | A matching success settles a CREATED, PENDING, FAILED or ABANDONED payment: the gross onto clearing, floor(gross x bps / 10000) to entertainer and venue (all of it to the venue without an entertainer), the rest to the platform, and one QUEUED payout per payable part; with no valid rule it is refused |
| SettlementCases.WrongSuccessIsRefused | src/payments/payment-settlement.service.ts:106-123 | Settling answers an integrity failure, with nothing written, exactly when amount or currency differ or no rule is stored |
| SettlementCases.UnpaidOnlyMovesStatus | src/payments/payment-settlement.service.ts:93-104 | An unpaid charge makes CREATED PENDING, a failed one makes CREATED and PENDING FAILED, and nothing else changes |
| SettlementCases.SettledIsLeftAlone | src/payments/payment-settlement.service.ts:77-91 | Any other payment is left alone, and so is one the provider cannot be asked about |
| Guarantees.AtMostThreeStatusChanges | src/payments/payment-settlement.service.ts:93-104 | However many callers race, a payment's status only climbs and changes at most three times |
| PayoutLife.EveryMove | src/payouts/payouts.service.ts:31-185 | In every run, by any action of anybody, a payout's status moves only along the listed edges; a new attempt is claimed only from QUEUED, RETRYING or PROCESSING, under the next number; SUCCESS is entered with exactly the payout's own debit and left with exactly its reversal |
| Payouts.NoPayoutIsStranded | src/payouts/payouts.service.ts:397-411 | In every run each payout has been paid, is FAILED and waits for a person, or is fetched by the sweep once it is untouched for long enough |
| Payouts.CandidatesAre | src/payouts/payouts.service.ts:398-411 | The sweep fetches exactly the payable QUEUED and RETRYING payouts and the PROCESSING ones gone quiet |
| PayoutCases.ClosedIsLeftAlone | src/payouts/payouts.service.ts:62-74 | processPayout leaves SUCCESS, FAILED and CANCELLED payouts, and unknown ones, exactly as they are |
| PayoutCases.OldTransferFirst | src/payouts/payouts.service.ts:76-95 | An old transfer that is pending is left alone, one awaiting a person is flagged, one that arrived is recorded with its debit; without an answer nothing happens |
| PayoutCases.NotSent | src/payouts/payouts.service.ts:101-123 | A destination that is not ready leaves the payout QUEUED, one that needs a person makes it FAILED, and nothing is sent or posted |
| PayoutCases.ClaimedBeforeAsking | src/payouts/payouts.service.ts:127-158 | When the provider fails after the claim, the row is PROCESSING under its new reference and nothing was sent |
| PayoutCases.NextAttempt | src/payouts/payouts.service.ts:127-185 | The next attempt sends the payout's own amount to the resolved account under the next reference, and the row ends PROCESSING, flagged, SUCCESS with its debit, RETRYING before the third attempt or FAILED from it on, as the transfer landed |
| PayoutCases.SucceededEvent | src/payouts/payouts.service.ts:323-326 | A success event records SUCCESS with exactly the payout's debit from every other status, and changes nothing the second time |
| PayoutCases.ReversedEvent | src/payouts/payouts.service.ts:328-346 | A reversal of a SUCCESS payout posts exactly the reversed lines and leaves it RETRYING, or FAILED from the third attempt on |
| PayoutCases.FailedEvent | src/payouts/payouts.service.ts:348-369 | A failure, or a reversal of what was not SUCCESS, posts nothing and leaves RETRYING, or FAILED from the third attempt on; a SUCCESS payout ignores failures |
| PayoutCases.UnknownReference | src/payouts/payouts.service.ts:314-321 | An event no row carries the reference of changes nothing |
| PayoutCases.RetriedMayBeSent | src/payouts/payouts.service.ts:376-388 | A manual retry reopens exactly a FAILED payout, which may then be sent unless its old transfer is live |
| Guarantees.UniqueIndexNeverFires | src/payments/payment-settlement.service.ts:141-158 | No two payouts share account and payment, so the unique index never rejects a settlement |
| Guarantees.ClaimsAreSingleUse | src/payouts/payouts.service.ts:127-143 | Each attempt number is claimed by at most one worker, attempts counts the claims, and the current reference is the one for attempts |
| Guarantees.EventsMatchCurrentReference | src/payouts/payouts.service.ts:314-321 | An event finds a payout exactly when it names that payout's current attempt; superseded references match nothing |
| References.ReferencesAreInjective | src/payouts/payouts.service.ts:129-130 | Two reference strings are equal exactly for the same UUID and the same attempt |
| Guarantees.AlwaysInv | src/payouts/payouts.service.ts:33-47 | The joint invariant of tables, workers, transfers, charges and claims holds after any actions, serial or not |
| Safety.Keeps | src/payouts/payouts.service.ts:62-185 | One arbitrary step of one arbitrary worker, or of the outside world, keeps the joint invariant |
| Safety.KeepsWorkers | src/payouts/payouts.service.ts:328-346 | What a worker read earlier and carries to its conditional write stays justified whatever others do in between |
| Safety.KeepsSuccess | src/payouts/payouts.service.ts:473-481 | SUCCESS is only ever recorded for a current reference that was delivered |
| TablesInvariant.SucceedKeepsConsistent | src/payouts/payouts.service.ts:473-481 | SUCCESS and its ledger debit in one transaction keep ledger, payments and payouts in agreement |
| TablesInvariant.ReverseKeepsConsistent | src/payouts/payouts.service.ts:328-343 | Leaving SUCCESS and the compensating entries in one transaction keep the agreement |
| TablesInvariant.SettleKeepsConsistent | src/payments/payment-settlement.service.ts:130-159 | Claim, posting and payouts in one transaction keep the agreement |
| TablesInvariant.TouchKeepsConsistent | src/payouts/payouts.service.ts:350-356 | Any row update that neither enters nor leaves SUCCESS keeps the agreement: a failed payout posts nothing |
| TablesInvariant.SettlementShape | src/ledger/ledger.service.ts:104-133 | A settlement's lines: clearing first, every payable credit positive, no account twice |
| Reconciliation.ReportIdentity | src/reconciliation/reconciliation.service.ts:48-80 | Whenever each figure was read along a run: debits equal credits, and clearing equals entertainer payables plus venue payables plus platform revenue once what was posted after each reading is added to it |
| Reconciliation.ReportIdentityAtOnce | src/reconciliation/reconciliation.service.ts:48-80 | Read at one moment, the figures satisfy that identity as they stand |
| Reconciliation.FiguresAre | src/reconciliation/reconciliation.service.ts:48-88 | Each figure, at its own moment of any run, in terms of the tables: payables are the unpaid payouts of that kind, clearing is what was settled less what was paid out, revenue what was settled and is owed to nobody, in flight what is PROCESSING, and the drift what is missing from the provider's balance |
| Reconciliation.TrialBalanceMeans | src/reconciliation/reconciliation.service.ts:48-57 | Of any tables, corrupt ones too, the trial balance is reported as balanced exactly if clearing equals what all other accounts are owed; the totals differ by what is missing and add up to everything posted |
| Reconciliation.LedgerIdentity | src/ledger/ledger.service.ts:175-184 | The identity itself, in every reachable ledger |
| Reconciliation.SumByTypeIsSumOverOwners | src/reconciliation/reconciliation.service.ts:93-100 | The per-type sum is the sum of the balances of the owners |
| Reconciliation.DriftDecomposition | src/reconciliation/reconciliation.service.ts:48-76 | With no fees or float, and the figures read at any moments before the provider's balance, the reported drift is exactly: paid charges not settled, plus payouts counted as sent without a live transfer, minus live transfers of payouts not counted as sent, plus what was settled and minus what was paid out since clearing was read, minus what entered PROCESSING since the in-flight sum was read |
| Reconciliation.DriftAtOnce | src/reconciliation/reconciliation.service.ts:58-76 | The first three terms are the drift at one instant |
| Reconciliation.ClearingMoves | src/ledger/ledger.repository.ts:83-98 | Between two moments clearing moves by exactly what was settled, less what was paid out |
| Reconciliation.TornBySuccess | src/reconciliation/reconciliation.service.ts:58-65 | In every run, one step of which records a payout's success: the report read as of before it and as of after it has the same drift, but with clearing read before and in-flight amounts after it the amount counts as missing |
| Reconciliation.TornReportIsReachable | src/reconciliation/reconciliation.service.ts:58-65 | Such a run from the empty system, with one job per payout: the drift is 0 and 5,000 naira are reported missing |
| Reconciliation.NoDriftWhenUpToDate | src/reconciliation/reconciliation.service.ts:82-88 | No drift is reported when at the end every paid charge is settled and payout statuses match the provider, and payments and payouts did not change since they were read |
| Ledger.SplitExactness | src/ledger/ledger.service.ts:82-102 | The shares are non-negative, sum to gross, and the platform keeps its own floor plus 0 to 2 kobo (0 to 1 with no entertainer) |
| Ledger.FloorBounds | src/ledger/ledger.service.ts:203-206 | A share is the exact proportion rounded down, between 0 and gross |
| Ledger.DroppingTheEntertainer | src/ledger/ledger.service.ts:97-102 | Giving the entertainer's share to the venue costs the platform 0 or 1 kobo |
| Ledger.PaymentPostingBalances | src/ledger/ledger.service.ts:104-136 | A settlement posting is balanced with positive lines and moves exactly gross onto clearing and each share onto its own account |
| Ledger.PayoutPostingEffect | src/ledger/ledger.service.ts:139-169 | A payout posting takes its amount off the payable account and off clearing and touches nothing else; a reversal undoes exactly that |
| Ledger.AssertBalanced | src/ledger/ledger.service.ts:186-201 | No failure exactly for non-empty lines of positive safe amounts with equal debits and credits; otherwise the error that applies, with the totals |
| Ledger.ComputePaymentEntries | src/ledger/ledger.service.ts:89-137 | The step-by-step form computes the specified lines or rejects, and what it returns is always balanced |
| Rounding.CumulativeRounding | src/ledger/ledger.service.ts:84-102 | Over any n payments under one rule, with or without an entertainer: the totals add up to the gross, entertainer and venue are each less than one kobo per payment below their exact share, and the platform exceeds the sum of its own floors by 0 to one kobo per payment plus one per payment with an entertainer |
| Rounding.FloatingPointRefinesDivision | src/ledger/ledger.service.ts:203-206 | The binary64 form, product and quotient each correctly rounded, equals exact integer division for every product below 2^53 |
| Rounding.DtoAmountsStayExact | src/payments/dto/initialize-payment.dto.ts:34-37 | Every amount the DTO admits keeps the product below 2^53 |
| LedgerRepository.LinesLandOnTheirAccounts | src/ledger/ledger.repository.ts:32-47 | Each line is written to its own account exactly when the posting does not mix a missing and an empty owner of one type |
| LedgerRepository.MixedOwnersLandTogether | src/ledger/ledger.repository.ts:34-36 | Such a posting, whose two lines end up on one account |
| LedgerRepository.ServicePostingsNeverClash | src/ledger/ledger.service.ts:104-169 | No posting the services compute is of that kind |
| LedgerRepository.LedgerRepository.ResolveAccountId | src/ledger/ledger.repository.ts:50-77 | Existing accounts keep their ids, at most this one is added, and the id returned is this account's |
| LedgerRepository.LedgerRepository.ResolveAccounts | src/ledger/ledger.repository.ts:32-38 | The key map leads every line to the account of the first line with its key |
| LedgerRepository.LedgerRepository.Post | src/ledger/ledger.repository.ts:23-48 | Accepts exactly the balanced postings; accepted lines are appended for the given payment, each with its direction and amount on an account of its type and owner, rejected ones change nothing |
| LedgerRepository.GetBalanceMatchesRows | src/ledger/ledger.repository.ts:83-98 | The balance from grouped sums, whatever groups come back and in what order, is the balance over the raw rows |
| LedgerRepository.BalanceFromSums | src/ledger/ledger.service.ts:175-184 | The signed sum is debits minus credits for clearing and credits minus debits for every other account |
| LedgerRows.JournalLandsAsWritten | src/ledger/ledger.repository.ts:30-47 | Every posting of every reachable journal passes the balance check and lands on exactly its own accounts |
| LedgerRows.GetBalanceIsWhatIsOwed | src/ledger/ledger.repository.ts:79-98 | For a payable account, the grouped-sum balance is the amount the payout table still owes its owner |
| SplitRuleHistory.HistoryTilesTime | src/split-rules/split-rules.service.ts:198-202 | From a venue's first activation on, every instant has exactly one rule in force |
| SplitRuleHistory.RunIsOk | src/split-rules/split-rules.service.ts:77-345 | After any operations: intervals disjoint and gap-free, columns set as the status says, shares valid and totalling 10000, audit trails complete |
| SplitRuleHistory.QuotedRuleIsTheOneInForce | src/split-rules/split-rules.service.ts:275-286 | The active rule a payment is quoted by is the rule in force from now on, and there is at most one |
| SplitRuleHistory.NeverBackToNone | src/split-rules/split-rules.service.ts:198-202 | A venue that has an active rule has exactly one ever after |
| SplitRuleHistory.PastIsSettled | src/split-rules/split-rules.service.ts:335-341 | No later operation changes which rule was in force at a past instant |
| SplitRuleHistory.TermsNeverChange | src/split-rules/split-rules.service.ts:335-341 | Shares, parties, origin and dates once set never change |
| SplitRuleHistory.EveryRuleWasCreated | src/split-rules/split-rules.service.ts:42-166 | Every rule of every run has the shares, venue, entertainer and author of one proposal or override; a proposal's shares and the platform's fee make 10000, for an entertainer who exists and is linked |
| SplitRuleHistory.ProposalChecks | src/split-rules/split-rules.service.ts:42-76 | A proposal is stored exactly when every check passes, and otherwise fails by the first that does not |
| SplitRuleHistory.ProposalReplacesOpenOnes | src/split-rules/split-rules.service.ts:77-108 | It withdraws the venue's own open proposals, nobody else's, and is open itself |
| SplitRuleHistory.AnswerDecides | src/split-rules/split-rules.service.ts:203-261 | An answer to an open proposal makes it ACTIVE or REJECTED at that instant, uses up the token and is audited; any other changes nothing |
| SplitRuleHistory.ConsentIsRecorded | src/split-rules/split-rules.service.ts:203-261 | At most one open proposal and one active rule per venue; a token exactly while a proposal is open; a rule's row determines its whole audit trail, so each proposal is answered at most once and active venue terms carry exactly one acceptance, by their entertainer |
| SplitRuleHistory.AcceptedWithItsToken | src/split-rules/split-rules.service.ts:303-317 | Venue terms come into force only through an answer that presented the token issued when those terms were proposed, and are exactly the shares, venue and entertainer proposed then |
| SplitRuleHistory.ActivationKeepsTiling | src/split-rules/split-rules.service.ts:127-156 | Starting one rule and ending the active one at the same instant keeps the tiling |
| Snapshots.SettledByTheRuleInForce | src/payments/payments.service.ts:73-100 | Under any interleaving, with any rule changes before the payment is stored and after, its only settlement posting divides it by the shares of the rule in force when the active rule was looked up |
| Snapshots.SharesOnlyGrow | src/split-rules/split-rules.service.ts:77-108 | Rule operations only append shares; stored ones never change |
| SplitRules.SplitRulesService.Propose | src/split-rules/split-rules.service.ts:42-121 | Refuses a wrong sum, an unknown or unlinked entertainer, in that order; otherwise withdraws the open proposal and stores this one with its audit event (`EveryRuleWasCreated` says with which shares) |
| SplitRules.SplitRulesService.Override | src/split-rules/split-rules.service.ts:127-166 | Ends the active rule and starts this one at the same clock reading, both audited, and the tables stay what the logged operations lead to |
| SplitRules.ReachByAnswering | src/split-rules/split-rules.service.ts:203-261 | An answer whose link was looked up any number of operations earlier is one more operation of the run |
| SplitRules.SplitRulesService.Respond | src/split-rules/split-rules.service.ts:203-261 | One "not valid" answer for every bad link; a conflict, and nothing written, if the proposal was closed since the lookup; otherwise exactly the answer's transaction |
| SplitRules.SplitRulesService.FindByConsentToken | src/split-rules/split-rules.service.ts:303-317 | True exactly for an open proposal and its own token |
| SplitRules.SplitRulesService.CloseOutActive | src/split-rules/split-rules.service.ts:320-345 | The loop closes exactly the venue's active rules, except the given one, each with one audit event |
| Names.SameNameMeansSameWords | src/kyc/kyc.service.ts:374-376 | Two names count as the same exactly when their words agree up to case |
| Onboarding.KycIsSound | src/kyc/kyc.service.ts:67-364 | After any operations on a fresh entertainer, one after the other: a stored name is the one the bank gave, for the stored number and code, a confirmation is for that name, VERIFIED implies confirmed, and DONE is shown exactly when payouts are enabled |
| OnboardingCalls.OverlappingKycIsSound | src/kyc/kyc.service.ts:67-311 | However calls overlap, each reading, waiting and writing: all of that holds throughout exactly when every write meets its condition on the row it finds |
| OnboardingCalls.LateKycWrite | src/kyc/kyc.service.ts:67-311 | The condition of one write, decided on an older reading, is necessary and sufficient |
| OnboardingCalls.LateSubmission | src/kyc/kyc.service.ts:79-105 | A submission that saw no change keeps the row sound exactly when no name is resolved or the row still is about what was submitted |
| OnboardingCalls.LateVerification | src/kyc/kyc.service.ts:215-252 | An identity check that comes back late keeps VERIFIED meaning confirmed exactly when the account still is |
| OnboardingCalls.LateSubmissionMisleads | src/kyc/kyc.service.ts:71-105 | A run in which a late submission puts one number under another number's bank answer, confirmed |
| OnboardingCalls.LateVerificationMisleads | src/kyc/kyc.service.ts:203-252 | A run in which a late identity check verifies an unconfirmed account |
| OnboardingCalls.UndisturbedKyc | src/kyc/kyc.service.ts:67-311 | A call nobody overlaps is the sequential operation |
| OnboardingCalls.UndisturbedMeets | src/kyc/kyc.service.ts:67-311 | Such a call always meets its condition |
| Onboarding.KycStaysCurrent | src/kyc/kyc.service.ts:143-156 | The bank has not refused the stored number and code since it named the stored holder, throughout a run, exactly when no rejection meets a row with a resolved name |
| OnboardingCases.VerifiedWasChecked | src/kyc/kyc.service.ts:199-311 | However calls overlap, an entertainer who is VERIFIED was made so by a successful identity check or an approval out of REVIEW, decided on a row with a confirmed account, and no write since has taken it back |
| OnboardingCases.KycAllows | src/kyc/kyc.service.ts:67-311 | Exactly what each call is allowed on the row it reads |
| OnboardingCases.SubmissionWrites | src/kyc/kyc.service.ts:79-105 | Other details than the call read drop name, confirmation and identity check; the same ones keep them |
| OnboardingCases.ResolutionWrites | src/kyc/kyc.service.ts:122-156 | The bank's name is stored unconfirmed; a rejection makes the entertainer FAILED and leaves the account columns |
| OnboardingCases.ConfirmationWrites | src/kyc/kyc.service.ts:171-191 | A confirmation dates the account and leaves the entertainer PENDING |
| OnboardingCases.IdentityWrites | src/kyc/kyc.service.ts:215-252 | A check that succeeds ends VERIFIED, one that fails FAILED, one that could not be made REVIEW |
| OnboardingCases.DecisionWrites | src/kyc/kyc.service.ts:269-311 | Approval ends VERIFIED, rejection FAILED, with the reason given |
| OnboardingCases.NextStepCanBeTaken | src/kyc/kyc.service.ts:347-364 | The step shown next is one the service accepts, and the step after it is refused until then |
| Onboarding.VenueIsSound | src/venue-payout-account/venue-payout-account.service.ts:59-186 | The same for a venue, one call after the other |
| Onboarding.VenueStaysCurrent | src/venue-payout-account/venue-payout-account.service.ts:117-123 | The same for a venue, where a rejection writes nothing |
| OnboardingCases.VenueAllows | src/venue-payout-account/venue-payout-account.service.ts:59-151 | Exactly what each venue call is allowed on the row it reads |
| OnboardingCases.VenueWrites | src/venue-payout-account/venue-payout-account.service.ts:59-151 | What each venue call writes on the row it then finds |
| OnboardingCalls.OverlappingVenueIsSound | src/venue-payout-account/venue-payout-account.service.ts:59-151 | The same for a venue, however calls overlap |
| OnboardingCalls.LateVenueWrite | src/venue-payout-account/venue-payout-account.service.ts:59-151 | The condition of one late write on a venue is necessary and sufficient |
| Onboarding.LateResolution | src/kyc/kyc.service.ts:122-139 | A bank answer that comes back late keeps the row sound exactly when number and code are still those asked about |
| Onboarding.LateConfirmation | src/kyc/kyc.service.ts:171-188 | A confirmation written late keeps the row sound exactly when the database refuses it, the name being gone, or the stored name still is one the accepted name stands for |
| Onboarding.OverlappingResolutionMisleads | src/kyc/kyc.service.ts:112-139 | Overlapping calls can confirm a new account number under the old account's name |
| OnboardingServices.KycService.SubmitBankDetails | src/kyc/kyc.service.ts:67-109 | Refused on the row it read, or, after others acted, written as that reading decided: details changed since then drop everything established about the old ones; undisturbed, the sequential operation |
| OnboardingServices.KycService.ResolveAccount | src/kyc/kyc.service.ts:112-159 | Asks about the pair it read and writes to the row it then finds: the bank's name without a confirmation, or FAILED on a rejection; a provider error writes nothing |
| OnboardingServices.KycService.ConfirmAccount | src/kyc/kyc.service.ts:167-191 | Only the name it read as resolved, up to case and spacing, confirms; on a row whose name is gone by then the database refuses, the call throws and nothing is written |
| OnboardingServices.KycService.VerifyIdentity | src/kyc/kyc.service.ts:199-262 | Needs a confirmed account when it reads; the outcome sets VERIFIED, FAILED or REVIEW on the row it then finds |
| OnboardingServices.KycService.DecideReview | src/kyc/kyc.service.ts:269-311 | Only from REVIEW, and approval only with a confirmed account, as it reads them |
| OnboardingServices.ReachedIsSafe | src/kyc/kyc.service.ts:67-311 | A row the service keeps is safe as long as every write so far met its condition |
| OnboardingServices.VenuePayoutAccountService.SubmitBankDetails | src/venue-payout-account/venue-payout-account.service.ts:59-89 | The row is read again once the bank list answered; written as that second reading decided |
| OnboardingServices.VenuePayoutAccountService.ResolveAccount | src/venue-payout-account/venue-payout-account.service.ts:92-124 | Stores the bank's name without a confirmation on the row it then finds; every failure writes nothing |
| OnboardingServices.VenuePayoutAccountService.ConfirmAccount | src/venue-payout-account/venue-payout-account.service.ts:132-151 | Only the name it read as resolved confirms, and not on a row whose name is gone by then |
| Destinations.EntertainerDestinationIsSound | src/payouts/payouts.service.ts:217-246 | After any onboarding operations one after the other, "send" is answered exactly when onboarding is DONE (and the bank is named), and only to the number and code the bank last named a holder for, after that very name was accepted; "hold" exactly when it is not DONE |
| Destinations.OverlappingEntertainerDestination | src/payouts/payouts.service.ts:217-246 | The same for overlapping calls whose writes meet their conditions |
| Destinations.MisledDestination | src/payouts/payouts.service.ts:233-246 | After the misleading run the gate sends to a number the bank was not last asked about |
| Destinations.SentAfterRefusal | src/kyc/kyc.service.ts:143-156 | A run after which the gate sends to a number and code the bank has refused since |
| Destinations.VenueDestinationIsSound | src/payouts/payouts.service.ts:248-272 | The same for venues one call after the other; the recipient's name is the one the bank gave |
| Destinations.VenueSentAfterRefusal | src/venue-payout-account/venue-payout-account.service.ts:117-123 | The same for a venue |
| Destinations.OverlappingVenueDestination | src/payouts/payouts.service.ts:248-272 | The same for overlapping calls whose writes meet their conditions |
| Destinations.EntertainerCases | src/payouts/payouts.service.ts:217-246 | For any tables: sent exactly when VERIFIED, confirmed and addressable, under the legal name; held in every other status; otherwise for review |
| Destinations.VenueCases | src/payouts/payouts.service.ts:248-272 | For any tables: sent exactly when confirmed and addressable, under the bank's name or the venue's own; held when unconfirmed; otherwise for review |
| Destinations.OthersNeedReview | src/payouts/payouts.service.ts:207-215 | Clearing, revenue and ownerless accounts are never sent to |
| Destinations.SweepReleasesEverySend | src/payouts/payouts.service.ts:424-447 | Every fetched candidate that would be sent is due, for any tables |
| Destinations.HeldIsEnqueuedOnlyByCollision | src/payouts/payouts.service.ts:440-447 | A held candidate is due exactly when its owner id is payable in the other role within the batch |
| Destinations.SharedIdReleasesHeld | src/payouts/payouts.service.ts:440-447 | Such a collision, with an entertainer who has not started onboarding and a confirmed venue of the same id |
| Destinations.SweepAgreesWithGate | src/payouts/payouts.service.ts:421-447 | With disjoint ids, what would be sent is due and what would be held is not |
| Payouts.SweepMatchesGate | src/payouts/payouts.service.ts:397-451 | The same for the batch fetched from the payout table |
| Webhooks.ReplayIsConfluent | src/webhooks/webhooks.service.ts:89-121 | Any deliveries, job attempts and polls in any order, with queue or provider outages and while the charge moves, store one event row and end in the books of exactly one settlement once one of them settles; until then only the payment's status moves |
| Webhooks.ReplayEqualsOneDelivery | src/webhooks/webhook-event-handler.service.ts:27-85 | The books equal those of a single delivery of a matching success handled in one go exactly when some operation settles |
| Webhooks.FirstReportDecides | src/webhooks/webhook-event-handler.service.ts:32-82 | Without polls, whatever is down and whenever the charge moves: the payment is settled exactly if the first report a handler got was a matching success; a handler that asked too early has completed the event for good |
| Webhooks.HandledTooEarly | src/webhooks/webhook-event-handler.service.ts:32-82 | A run in which a job asks while the charge is unpaid: it is paid afterwards, and no number of deliveries settles it, while one poll does (unless the payment was FAILED or abandoned before) |
| Webhooks.RedeliverySettles | src/webhooks/webhooks.service.ts:106-149 | After any run that has not settled, one more delivery (and its job) against a matching success settles exactly if the event is new, or not completed and, with a queue, its job waits or is no longer retained |
| Webhooks.WithoutOutages | src/payments/payments.service.ts:196-216 | Against a matching success with queue and provider up, they are equal exactly when the run includes a delivery handled inline, a job attempt after a delivery, or a poll of a payment not yet reported failed |
| Webhooks.PollOfFailedSettlesNothing | src/payments/payments.service.ts:206-216 | Polling a payment once reported failed settles nothing although a delivery would |
| Webhooks.MismatchChangesNothing | src/payments/payment-settlement.service.ts:106-123 | Against a success of another amount or currency, or without a rule, none of them changes payment, ledger or payouts, and the event is never completed |
| SettlementCases.HandlingEnds | src/webhooks/webhook-event-handler.service.ts:33-89 | An event ends COMPLETED when settling threw nothing, otherwise FAILED; only a missing division and an outage are thrown again |
| SettlementCases.JobEnds | src/queue/payments.processors.ts:17-26 | A job whose handling threw stays, or is retained after the last attempt; any other is done, a wrong success in particular |
| SettlementCases.PollIsHandling | src/payments/payments.service.ts:196-216 | A poll of a CREATED or PENDING payment writes what handling its event would; of any other it writes nothing |
| Completion.FinishedCallHasSettled | src/payments/payment-settlement.service.ts:77-176 | Whatever else happens while a settlement call runs, once it has ended without an exception against a matching success, the payment is settled with exactly the ledger posting and payouts of one undisturbed settlement |
| Webhooks.RedeliveryQueues | src/webhooks/webhooks.service.ts:106-149 | With a queue, a redelivery leads to another attempt exactly if one waits anyway, or the event is not completed, the queue is up and no longer retains the event's job |
| Webhooks.RetainedIsForgotten | src/webhooks/webhooks.service.ts:134-148 | While it is retained, redeliveries and workers change nothing at all |
| Webhooks.ForgottenAfterOutage | src/webhooks/webhooks.service.ts:39-41 | A provider outage at the last attempt leads there, and no redelivery then settles the charge |
| Webhooks.FindEvent | src/webhooks/webhooks.service.ts:106-108 | Finds an event with this external id exactly when one is stored |
| Guarantees.RunExtends | src/payouts/payouts.service.ts:125-143 | Whatever happens later, obligations, attempts, settled payments, postings and deliveries only grow |
| Store.RowsExist | src/payouts/payouts.service.ts:462-466 | The row a worker is about to touch exists, and so does the recipient code it is about to pay to |
| Store.Database.FindPayout | src/payouts/payouts.service.ts:62-74 | Reads the row; the run ends for a missing or closed payout |
| Store.Database.VerifyTransfer | src/payouts/payouts.service.ts:78-96 | Reports the transfer behind the old reference, or throws; the run may go on only past a dead one |
| Store.Database.ResolveDestination | src/payouts/payouts.service.ts:203-278 | Answers by the onboarding tables as they are now |
| Store.Database.HoldPayout | src/payouts/payouts.service.ts:111-116 | Back to QUEUED only if the status is still the one seen |
| Store.Database.ClaimPayout | src/payouts/payouts.service.ts:127-143 | Claims exactly if the payout is open and attempts is still the number seen; the reference is stored in the same update |
| Store.Database.CreateRecipient | src/payouts/payouts.service.ts:147-154 | A code that from then on stands for the account handed to the provider, or an exception that leaves the run where it is |
| Store.Database.SaveRecipient | src/payouts/payouts.service.ts:155-158 | Stores the recipient code and nothing else |
| Store.Database.ApplyTransfer | src/payouts/payouts.service.ts:160-167 | The provider takes a new reference with this amount to the account the code stands for, or reports the transfer it already has |
| Store.Database.InitiateTransfer | src/payouts/payouts.service.ts:160-184 | Applied before the answer, before the exception, or never; an exception ends the run where it asked |
| Store.Database.FindByReference | src/payouts/payouts.service.ts:314-359 | The row carrying this reference decides how the run goes on |
| Store.Database.FailAttempt | src/payouts/payouts.service.ts:350-356 | RETRYING only if the reference is current and the payout not SUCCESS; nothing is posted |
| Store.Database.ReversePayout | src/payouts/payouts.service.ts:336-344 | Status and compensating entries together, exactly if the payout is SUCCESS with this reference |
| Store.Database.FindPayoutToMark | src/payouts/payouts.service.ts:463-471 | Reads the row whose entries are then committed |
| Store.Database.SucceedPayout | src/payouts/payouts.service.ts:473-481 | SUCCESS and the ledger debit together, exactly if the reference is current and the payout not SUCCESS yet |
| Store.Database.FlagPayout | src/payouts/payouts.service.ts:296-299 | Only the failure reason changes |
| Store.Database.ReviewPayout | src/payouts/payouts.service.ts:494-497 | FAILED unless SUCCESS |
| Store.Database.ReopenPayout | src/payouts/payouts.service.ts:377-381 | RETRYING exactly from FAILED |
| Store.Database.FindPayment | src/payments/payment-settlement.service.ts:77-89 | Reads the row; the run ends unless it is settleable |
| Store.Database.VerifyPayment | src/payments/payment-settlement.service.ts:91-123 | The provider's report decides how the run goes on |
| Store.Database.MovePayment | src/payments/payment-settlement.service.ts:198-203 | Moves the status only from the given ones |
| Store.Database.FindRule | src/payments/payment-settlement.service.ts:125-128 | The quoted rule, if it exists |
| Store.Database.SettlePayment | src/payments/payment-settlement.service.ts:130-159 | All of claim, posting and payouts, or nothing when somebody else settled |
| Store.Database.CreatePayouts | src/payments/payment-settlement.service.ts:141-158 | The loop creates one payout per payable credit, in order, and returns their ids |
| Store.Database.CreatePayment | src/payments/payments.service.ts:87-100 | The new payment carries its terms and the rule quoted |
| Payouts.PayoutsService.ProcessPayout | src/payouts/payouts.service.ts:62-185 | One call is exactly one complete run of the payout worker, whatever happens between its steps; it throws only when a provider or the queue is down, or no posting can be made, and what it reports down its run shows: a crash at the question that got no answer, or a transfer taken whose answer was lost; undisturbed, exactly the specified books, transfers, queue and exception |
| Payouts.PayoutsService.Transfer | src/payouts/payouts.service.ts:127-184 | Claim and persist the reference before the provider is called; undisturbed, exactly the claimed attempt, the stored recipient and a transfer of the payout's own amount, under that reference, to the account the gate answered |
| Payouts.PayoutsService.HandleTransferEvent | src/payouts/payouts.service.ts:309-369 | One complete run of the event worker; undisturbed, exactly the specified payout row, postings and queue, up to the limit of attempts and review |
| Payouts.PayoutsService.MarkSucceeded | src/payouts/payouts.service.ts:462-490 | With nobody else around: SUCCESS and the payout's own debit, exactly if the reference is current |
| Payouts.PayoutsService.FlagForOperator | src/payouts/payouts.service.ts:289-306 | With nobody else around only the failure reason changes: status, ledger and transfers stay |
| Payouts.PayoutsService.MarkForReview | src/payouts/payouts.service.ts:493-502 | With nobody else around FAILED unless SUCCESS; the ledger is untouched |
| Payouts.PayoutsService.RetryPayout | src/payouts/payouts.service.ts:376-388 | Reopens and enqueues exactly a FAILED payout; otherwise the error that applies |
| Payouts.PayoutsService.FindCandidates | src/payouts/payouts.service.ts:398-411 | At most 500 payable, waiting or stale payouts; all of them if there are no more |
| Payouts.PayoutsService.EnqueueDuePayouts | src/payouts/payouts.service.ts:397-455 | Enqueues exactly the fetched candidates whose owner is payable, and counts them; it throws only when a queueing threw |
| Payments.PaymentSettlementService.Settle | src/payments/payment-settlement.service.ts:77-176 | One call is one complete run of the settlement worker; an error means that the provider did not answer it, that its success differs in amount or currency or there is no rule, or that nothing can be divided; with nobody else around it has exactly the effect, the result and the error of settling, and every new payout is queued or its queueing threw |
| Payments.PaymentSettlementService.Confirm | src/payments/payment-settlement.service.ts:91-176 | The same from the provider's report on |
| Payments.PaymentSettlementService.PostAndCreatePayouts | src/payments/payment-settlement.service.ts:125-159 | Posts the division by the quoted rule, or fails and changes nothing when there is none |
| Payments.PaymentSettlementService.EnqueuePayouts | src/payments/payment-settlement.service.ts:178-196 | Best effort: every new payout is queued or its queueing threw, one failure keeps none of the others back, and nothing else joins the queue |
| Payments.PaymentsService.InitializePayment | src/payments/payments.service.ts:49-149 | The first refusal in order, with nothing written; otherwise, whatever happens after the active rule was looked up, one payment with its terms and that rule, CREATED, or FAILED when no checkout could be opened |
| Payments.InitializeChecks | src/payments/payments.service.ts:49-85 | A payment is stored exactly for a live session, active code, venue and entertainer, and an active rule; otherwise the first thing amiss answers |
| Payments.PaymentsService.GetPaymentStatus | src/payments/payments.service.ts:196-231 | Starts a settlement for exactly CREATED and PENDING payments, swallows errors, and reports the stored status |
| WebhookServices.Inbox.Create | src/webhooks/webhooks.service.ts:91-105 | The unique external id turns a second insert away |
| WebhookServices.WebhookEventHandler.Handle | src/webhooks/webhook-event-handler.service.ts:27-89 | A completed event is left alone; any other has started the settlement or the transfer event it names and ends COMPLETED or FAILED, whatever other requests do to the table meanwhile; undisturbed, exactly the specified settlement, or the specified payout row, postings and queue, and rethrow |
| WebhookServices.WebhookEventHandler.Dispatch | src/webhooks/webhook-event-handler.service.ts:43-79 | Each body starts its own run: a settlement, a transfer event with its outcome, or none; an integrity failure fails without being rethrown, any other error is rethrown; undisturbed, exactly the effect of that run |
| WebhookServices.WebhooksService.Ingest | src/webhooks/webhooks.service.ts:66-122 | Nothing unsigned or malformed is stored; one row per external id; with a queue, exactly the job of an unfinished event is added unless its id is retained or the queue missed it; without one, the run the event names has been started |
| WebhookServices.WebhooksService.Enqueue | src/webhooks/webhooks.service.ts:129-149 | To the queue, unless it retains the job's id, or handled inline when there is none |
| WebhookServices.WebhooksProcessor.Process | src/queue/payments.processors.ts:17-26 | One attempt has started the run the event names; then the job is done, stays to be tried again, or is retained after the last |

## Left out

- SingleTransfer.NoObligationIsPaidTwice: needs one job per payout at a time and that a crashed run never resumes; `OverlappingRunsPayTwice` shows why.
- SingleTransfer.ReachableSerial: the same assumption.
- Reconciliation.DriftDecomposition: the same assumption, and no processor fees, settlement delay or float.
- Reconciliation.NoDriftWhenUpToDate: one direction, since mismatches of opposite sign cancel; `DriftDecomposition` is the exact statement.
- Guarantees.PostedExactlyOnce: does not say that a SUCCESS transfer is still successful, because a success event processed after a reversal sets SUCCESS again.
- Onboarding.KycIsSound: operations of one owner run one after the other; `OverlappingKycIsSound` is the statement for calls that overlap.
- Onboarding.VenueIsSound: the same, with `OverlappingVenueIsSound`.
- Destinations.EntertainerDestinationIsSound: the same, with `OverlappingEntertainerDestination`.
- Destinations.VenueDestinationIsSound: the same, with `OverlappingVenueDestination`.
- Webhooks.ReplayIsConfluent: deliveries, job attempts and polls each run to their end before the next begins; `FinishedCallHasSettled` is the statement for settlement calls that overlap anything.
- Payees.TransfersGoWhereTheGateSaid: the name given to the provider with the account is carried to the call that creates the recipient, not into the transfer, which names only the code.
- Webhooks.FirstReportDecides: polls are left out of its run; `ReplayEqualsOneDelivery` is the exact statement with them.
- Webhooks.WithoutOutages: a sequence that ends before its first handled job, or consists of polls of a payment already reported failed, does not settle; with outages `ReplayEqualsOneDelivery` is the exact statement.
- Store.Database.CreatePayment: the FAILED overwrite after a failed checkout is folded into the creation of the row, by the assumption above.
- Rounding.FloatingPointRefinesDivision: products of 2^53 and above are not covered; the DTO keeps amounts far below.
- Names.SameNameMeansSameWords: upper-casing is ASCII only and white space is the ASCII kind plus the no-break space.
- Payouts.PayoutsService.EnqueueDuePayouts: which 500 of more candidates are fetched, and whether a payout is ever among them, is not modelled.
- No bound on attempts: the limit of three is consulted only when an event reports a failure.
- HTTP, authentication, DTO decorators, Prisma, Redis, BullMQ, logging and configuration; outages appear as calls that may throw.
- Hashing and constant-time comparison: a consent token either is or is not the stored one. Freshness of tokens is not assumed.
- Failure texts are datatypes instead of strings, and timestamps other than the split-rule dates and the onboarding dates are dropped.
- Audit details (JSON), displayed terms, masked account numbers and the splitting of legal names.
- Sums above 2^53 in the report and in running totals: model integers are exact.
- Writes to bank columns outside onboarding (`EntertainersService.update`), and statuses no modelled code writes (CANCELLED, REVERSED, REFUNDED, ABANDONED).
- Database triggers and constraints; the model proves that no posting and no settlement would trip them where it says so.
- CRUD services, QR codes, guest sessions beyond the checks of initialization, dashboards and health.
