/** The tables the money lives in, and every database transaction that changes them, as functions.
    Rows are kept in creation order and addressed by position. */
module Tables {
  import opened Wrappers
  import opened Ledger

  datatype PaymentStatus = CREATED | PENDING | SUCCESS | FAILED | ABANDONED | REVERSED | REFUNDED

  datatype Payment = Payment(terms: PaymentForPosting, splitRuleId: Option<nat>, status: PaymentStatus)

  datatype PayoutStatus = QUEUED | PROCESSING | SUCCESS | FAILED | RETRYING | CANCELLED

  /** po_<id>_<attempt>: module References shows the string stands for exactly this pair. */
  datatype Reference = Reference(payout: nat, attempt: nat)

  datatype TransferEvent = TransferSucceeded | TransferFailed | TransferReversed

  datatype ReviewCause =
    | BadDestination(why: string)
    | TooManyAttempts(event: TransferEvent, attempts: nat, given: Option<string>)

  datatype FailureReason =
    | ActionRequired
    | Given(text: string)
    | DefaultFor(event: TransferEvent)
    | ManualReview(cause: ReviewCause)

  datatype Payout = Payout(
    account: Account, transactionId: nat, amountKobo: int,
    status: PayoutStatus, attempts: nat, transferReference: Option<Reference>,
    recipientCode: Option<string>, failureReason: Option<FailureReason>)

  /** One call of the ledger repository's post: lines written together for one payment. */
  datatype Posting = Posting(transactionId: nat, entries: seq<EntrySpec>)

  datatype Books = Books(rules: seq<Split>, payments: seq<Payment>, payouts: seq<Payout>, journal: seq<Posting>)

  datatype Obligation = Obligation(account: Account, amountKobo: int)

  predicate IsOpen(status: PayoutStatus) {
    status == QUEUED || status == RETRYING || status == PROCESSING
  }

  predicate IsSettleable(status: PaymentStatus) {
    status == CREATED || status == PENDING || status == PaymentStatus.FAILED || status == ABANDONED
  }

  // ---------------------------------------------------------------- readings of the tables

  /** The raw ledger_entries rows. */
  function Rows(journal: seq<Posting>): seq<EntrySpec> {
    if |journal| == 0 then [] else Rows(journal[..|journal| - 1]) + journal[|journal| - 1].entries
  }

  /** The balance of an account: what is owed to its owner, for a payable one. */
  function Balance(b: Books, account: Account): int {
    Net(Rows(b.journal), account)
  }

  /** The division of a payment by the rule it was quoted under. */
  function SplitLines(b: Books, payment: Payment): Result<seq<EntrySpec>, PostingError> {
    if payment.splitRuleId.Some? && payment.splitRuleId.value < |b.rules|
    then PaymentEntries(payment.terms, b.rules[payment.splitRuleId.value])
    else Err(InvalidPosting)
  }

  /** The payable credits of a posting, in order: what settlement turns into payout rows. */
  function Obligations(entries: seq<EntrySpec>): seq<Obligation> {
    if |entries| == 0 then []
    else
      var e := entries[|entries| - 1];
      Obligations(entries[..|entries| - 1])
      + if e.direction == Credit && IsPayable(e.account.kind) then [Obligation(e.account, e.amountKobo)] else []
  }

  function NewPayout(o: Obligation, t: nat): Payout {
    Payout(o.account, t, o.amountKobo, QUEUED, 0, None, None, None)
  }

  function NewPayouts(os: seq<Obligation>, t: nat): seq<Payout> {
    seq(|os|, i requires 0 <= i < |os| => NewPayout(os[i], t))
  }

  /** The payouts created for one payment, as obligations. */
  function ObligationsOf(payouts: seq<Payout>, t: nat): seq<Obligation> {
    if |payouts| == 0 then []
    else
      var row := payouts[|payouts| - 1];
      ObligationsOf(payouts[..|payouts| - 1], t)
      + if row.transactionId == t then [Obligation(row.account, row.amountKobo)] else []
  }

  /** The settlement postings of one payment: those whose first line is on the clearing account. */
  function SettlementsOf(journal: seq<Posting>, t: nat): seq<seq<EntrySpec>> {
    if |journal| == 0 then []
    else
      var po := journal[|journal| - 1];
      SettlementsOf(journal[..|journal| - 1], t)
      + if po.transactionId == t && |po.entries| > 0 && po.entries[0].account == CLEARING then [po.entries] else []
  }

  /** The payout (Debit) and reversal (Credit) postings against one payable account of one payment, in order. */
  function MovesOf(journal: seq<Posting>, t: nat, account: Account): seq<Direction> {
    if |journal| == 0 then []
    else
      var po := journal[|journal| - 1];
      MovesOf(journal[..|journal| - 1], t, account)
      + if po.transactionId == t && |po.entries| > 0 && po.entries[0].account == account
        then [po.entries[0].direction] else []
  }

  /** Sum of the amounts of the account's payouts that are not SUCCESS. */
  function Owed(payouts: seq<Payout>, account: Account): int {
    if |payouts| == 0 then 0
    else
      var row := payouts[|payouts| - 1];
      Owed(payouts[..|payouts| - 1], account)
      + if row.account == account && row.status != PayoutStatus.SUCCESS then row.amountKobo else 0
  }

  function PaidOut(payouts: seq<Payout>): int {
    if |payouts| == 0 then 0
    else
      var row := payouts[|payouts| - 1];
      PaidOut(payouts[..|payouts| - 1]) + if row.status == PayoutStatus.SUCCESS then row.amountKobo else 0
  }

  function SettledGross(payments: seq<Payment>): int {
    if |payments| == 0 then 0
    else
      var row := payments[|payments| - 1];
      SettledGross(payments[..|payments| - 1])
      + if row.status == PaymentStatus.SUCCESS then row.terms.grossAmountKobo else 0
  }

  // ---------------------------------------------------------------- transactions on payments

  function AddRule(b: Books, split: Split): Books {
    b.(rules := b.rules + [split])
  }

  function AddPayment(b: Books, payment: Payment): Books {
    b.(payments := b.payments + [payment])
  }

  /** A conditional status update that does not settle. */
  function MovePayment(b: Books, t: nat, from: set<PaymentStatus>, to: PaymentStatus): Books
    requires t < |b.payments|
  {
    if b.payments[t].status in from then b.(payments := b.payments[t := b.payments[t].(status := to)]) else b
  }

  /** Claim the payment, write the posting and create the obligations, all or nothing. */
  function SettlePayment(b: Books, t: nat, entries: seq<EntrySpec>): Books
    requires t < |b.payments|
  {
    if !IsSettleable(b.payments[t].status) then b
    else b.(payments := b.payments[t := b.payments[t].(status := PaymentStatus.SUCCESS)],
            journal := b.journal + [Posting(t, entries)],
            payouts := b.payouts + NewPayouts(Obligations(entries), t))
  }

  // ---------------------------------------------------------------- transactions on payouts

  function SetPayout(b: Books, p: nat, row: Payout): Books
    requires p < |b.payouts|
  {
    b.(payouts := b.payouts[p := row])
  }

  function HoldPayout(b: Books, p: nat, seen: PayoutStatus): Books
    requires p < |b.payouts|
  {
    if b.payouts[p].status == seen then SetPayout(b, p, b.payouts[p].(status := QUEUED)) else b
  }

  predicate CanClaim(b: Books, p: nat, seenAttempts: nat)
    requires p < |b.payouts|
  {
    IsOpen(b.payouts[p].status) && b.payouts[p].attempts == seenAttempts
  }

  function ClaimPayout(b: Books, p: nat, seenAttempts: nat): Books
    requires p < |b.payouts|
  {
    if CanClaim(b, p, seenAttempts)
    then SetPayout(b, p, b.payouts[p].(status := PROCESSING, attempts := seenAttempts + 1,
                                       transferReference := Some(Reference(p, seenAttempts + 1)),
                                       failureReason := None))
    else b
  }

  function SaveRecipient(b: Books, p: nat, code: string): Books
    requires p < |b.payouts|
  {
    SetPayout(b, p, b.payouts[p].(recipientCode := Some(code)))
  }

  function FlagPayout(b: Books, p: nat): Books
    requires p < |b.payouts|
  {
    SetPayout(b, p, b.payouts[p].(failureReason := Some(ActionRequired)))
  }

  function ReviewPayout(b: Books, p: nat, cause: ReviewCause): Books
    requires p < |b.payouts|
  {
    if b.payouts[p].status != PayoutStatus.SUCCESS
    then SetPayout(b, p, b.payouts[p].(status := PayoutStatus.FAILED, failureReason := Some(ManualReview(cause))))
    else b
  }

  function ReasonOr(given: Option<string>, event: TransferEvent): FailureReason {
    if given.Some? then Given(given.value) else DefaultFor(event)
  }

  /** A failed (or reversed before success) attempt: only the payout's state changes. */
  function FailAttempt(b: Books, p: nat, ref: Reference, event: TransferEvent, given: Option<string>): Books
    requires p < |b.payouts|
  {
    var row := b.payouts[p];
    if row.transferReference == Some(ref) && row.status != PayoutStatus.SUCCESS
    then SetPayout(b, p, row.(status := RETRYING, failureReason := Some(ReasonOr(given, event))))
    else b
  }

  function RetryPayout(b: Books, p: nat): Books
    requires p < |b.payouts|
  {
    if b.payouts[p].status == PayoutStatus.FAILED
    then SetPayout(b, p, b.payouts[p].(status := RETRYING, failureReason := None))
    else b
  }

  predicate CanSucceed(b: Books, p: nat, ref: Reference)
    requires p < |b.payouts|
  {
    b.payouts[p].transferReference == Some(ref) && b.payouts[p].status != PayoutStatus.SUCCESS
  }

  /** SUCCESS and the ledger debit, atomically. */
  function SucceedPayout(b: Books, p: nat, ref: Reference, entries: seq<EntrySpec>): Books
    requires p < |b.payouts|
  {
    if CanSucceed(b, p, ref)
    then SetPayout(b, p, b.payouts[p].(status := PayoutStatus.SUCCESS, failureReason := None))
         .(journal := b.journal + [Posting(b.payouts[p].transactionId, entries)])
    else b
  }

  predicate CanReverse(b: Books, p: nat, ref: Reference)
    requires p < |b.payouts|
  {
    b.payouts[p].transferReference == Some(ref) && b.payouts[p].status == PayoutStatus.SUCCESS
  }

  /** Out of SUCCESS and the compensating entries, atomically. */
  function ReversePayout(b: Books, p: nat, ref: Reference, entries: seq<EntrySpec>, given: Option<string>): Books
    requires p < |b.payouts|
  {
    if CanReverse(b, p, ref)
    then SetPayout(b, p, b.payouts[p].(status := RETRYING,
                                       failureReason := Some(ReasonOr(given, TransferReversed))))
         .(journal := b.journal + [Posting(b.payouts[p].transactionId, entries)])
    else b
  }

  // ---------------------------------------------------------------- what the tables always satisfy

  predicate IsSettled(b: Books, t: nat) {
    t < |b.payments| && b.payments[t].status == PaymentStatus.SUCCESS
  }

  function CurrentReference(p: nat, attempts: nat): Option<Reference> {
    if attempts == 0 then None else Some(Reference(p, attempts))
  }

  predicate Alternates(moves: seq<Direction>) {
    forall i | 0 <= i < |moves| :: moves[i] == if i % 2 == 0 then Debit else Credit
  }

  /** Exactly one settlement posting and one payout per payable credit once SUCCESS; none before. */
  predicate PaymentOk(b: Books, t: nat)
    requires t < |b.payments|
  {
    var lines := SplitLines(b, b.payments[t]);
    if IsSettled(b, t)
    then lines.Ok? && SettlementsOf(b.journal, t) == [lines.value]
        && ObligationsOf(b.payouts, t) == Obligations(lines.value)
    else SettlementsOf(b.journal, t) == [] && ObligationsOf(b.payouts, t) == []
  }

  predicate PayoutOk(b: Books, p: nat)
    requires p < |b.payouts|
  {
    var row := b.payouts[p];
    && IsSettled(b, row.transactionId)
    && IsPayable(row.account.kind) && 0 < row.amountKobo <= MAX_SAFE_INTEGER
    && row.transferReference == CurrentReference(p, row.attempts)
    && var moves := MovesOf(b.journal, row.transactionId, row.account);
       Alternates(moves) && (|moves| % 2 == 1 <==> row.status == PayoutStatus.SUCCESS)
  }

  /** The posting is the payout or the reversal of this payout row. */
  predicate MovesPayout(po: Posting, row: Payout) {
    && po.transactionId == row.transactionId
    && CanPayOut(row.account, row.amountKobo)
    && (po.entries == PayoutLines(row.account, row.amountKobo)
        || po.entries == ReversalLines(row.account, row.amountKobo))
  }

  ghost predicate PostingOk(b: Books, po: Posting) {
    && IsSettled(b, po.transactionId)
    && Balanced(po.entries)
    && (|| SplitLines(b, b.payments[po.transactionId]) == Ok(po.entries)
        || exists row <- b.payouts :: MovesPayout(po, row))
  }

  predicate UniqueObligations(payouts: seq<Payout>) {
    forall i, j | 0 <= i < j < |payouts| ::
      payouts[i].account != payouts[j].account || payouts[i].transactionId != payouts[j].transactionId
  }

  /** The ledger agrees with the payout table and with the payment table. */
  ghost predicate BalancesOk(b: Books) {
    && (forall a: Account | IsPayable(a.kind) :: Balance(b, a) == Owed(b.payouts, a))
    && Balance(b, CLEARING) == SettledGross(b.payments) - PaidOut(b.payouts)
  }

  ghost predicate PaymentsOk(b: Books) { forall t | 0 <= t < |b.payments| :: PaymentOk(b, t) }

  ghost predicate PayoutsOk(b: Books) { forall p | 0 <= p < |b.payouts| :: PayoutOk(b, p) }

  ghost predicate JournalOk(b: Books) { forall po <- b.journal :: PostingOk(b, po) }

  ghost predicate Consistent(b: Books) {
    PaymentsOk(b) && PayoutsOk(b) && JournalOk(b) && UniqueObligations(b.payouts) && BalancesOk(b)
  }

  /** What no transaction ever changes: rules and quoted terms, settled payments, obligations, written postings. */
  ghost predicate Extends(b: Books, c: Books) {
    && b.rules <= c.rules
    && |b.payments| <= |c.payments|
    && (forall t | 0 <= t < |b.payments| ::
          && c.payments[t].terms == b.payments[t].terms && c.payments[t].splitRuleId == b.payments[t].splitRuleId
          && (IsSettled(b, t) ==> IsSettled(c, t)))
    && |b.payouts| <= |c.payouts|
    && (forall p | 0 <= p < |b.payouts| ::
          SameObligation(b.payouts[p], c.payouts[p]) && b.payouts[p].attempts <= c.payouts[p].attempts)
    && b.journal <= c.journal
  }

  predicate SameObligation(x: Payout, y: Payout) {
    x.account == y.account && x.transactionId == y.transactionId && x.amountKobo == y.amountKobo
  }
}
