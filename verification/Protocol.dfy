/** Settlement and payout as a protocol: any number of workers, a payment provider, a transfer provider.
    Each database read, provider call and conditional transaction is one step; between any two steps of a
    worker everything else may happen, and a worker may crash (or see an exception) at any point. */
module Protocol {
  import opened Wrappers
  import opened Ledger
  import opened Tables

  const MAX_AUTOMATIC_TRANSFER_ATTEMPTS := 3
  const SETTLEMENT_CURRENCY := "NGN"

  // ---------------------------------------------------------------- the providers

  datatype TransferStatus = InFlight | AwaitingAction | Delivered | Bounced | Returned

  datatype BankAccount = BankAccount(accountNumber: string, bankCode: string)

  datatype Transfer = Transfer(status: TransferStatus, amountKobo: int, to: BankAccount)

  /** What verifying a charge reports; not paid yet and abandoned are the same to settlement. */
  datatype Charge = Unpaid | ChargeFailed | Paid(amountKobo: int, currency: Option<string>)

  /** The transfer has moved the money, or still may. */
  predicate IsLive(status: TransferStatus) {
    status == InFlight || status == AwaitingAction || status == Delivered
  }

  /** Failed and reversed are final; a success may only be reversed. */
  predicate MayBecome(from: TransferStatus, to: TransferStatus) {
    match from
    case InFlight => true
    case AwaitingAction => true
    case Delivered => to == Delivered || to == Returned
    case Bounced => to == Bounced
    case Returned => to == Returned
  }

  // ---------------------------------------------------------------- workers

  /** Whom a payout goes to: the account, and the name of its owner that the provider is given. */
  datatype Payee = Payee(name: string, account: BankAccount)

  /** What resolving the destination answers; module Destinations says when. */
  datatype Verdict = Send(payee: Payee) | Hold | Review(why: string)

  datatype Pc =
    // processPayout
    | PayoutRead(p: nat)
    | PayoutVerify(p: nat, seen: Payout)
    | PayoutResolve(p: nat, seen: Payout)
    | PayoutHold(p: nat, was: PayoutStatus)
    | PayoutClaim(p: nat, seen: Payout, payee: Payee)
    | PayoutRecipient(p: nat, attempt: nat, payee: Payee)
    | PayoutRecipientSave(p: nat, attempt: nat, code: string)
    | PayoutInitiate(p: nat, attempt: nat, code: string)
    // handleTransferEvent
    | EventRead(ref: Reference, event: TransferEvent, given: Option<string>)
    | EventFail(p: nat, ref: Reference, event: TransferEvent, given: Option<string>, seenAttempts: nat)
    | EventReverse(p: nat, ref: Reference, entries: seq<EntrySpec>, given: Option<string>, seenAttempts: nat)
    // markSucceeded, flagForOperator, markForReview
    | MarkRead(p: nat, ref: Reference)
    | MarkCommit(p: nat, ref: Reference, entries: seq<EntrySpec>)
    | FlagWrite(p: nat)
    | ReviewWrite(p: nat, cause: ReviewCause)
    // settle
    | SettleRead(t: nat)
    | SettleVerify(t: nat, quoted: Payment)
    | SettleMove(t: nat, from: set<PaymentStatus>, to: PaymentStatus)
    | SettleRule(t: nat, quoted: Payment)
    | SettleCommit(t: nat, entries: seq<EntrySpec>)

  /** serves is the payout whose processPayout run this worker is executing, if any. */
  datatype Worker = Worker(serves: Option<nat>, pc: Pc)

  datatype Claim = Claim(worker: nat, payout: nat, attempt: nat)

  /** charges[t] is the provider's view of payment t, recipients[code] the account it pays for this recipient code.
      everDelivered and claims only record history. */
  datatype State = State(
    books: Books, charges: seq<Charge>, recipients: map<string, BankAccount>, transfers: map<Reference, Transfer>,
    everDelivered: set<Reference>, claims: seq<Claim>, workers: map<nat, Worker>)

  const INITIAL := State(Books([], [], [], []), [], map[], map[], {}, [], map[])

  /** Everything a step may find out from outside. */
  datatype Choice = Choice(verdict: Verdict, lands: TransferStatus, recipient: string, given: Option<string>)

  datatype Action =
    | NewRule(split: Split)
    | NewPayment(terms: PaymentForPosting, splitRuleId: Option<nat>, checkoutOpened: bool)
    | ChargeMoves(t: nat, charge: Charge)
    | TransferMoves(ref: Reference, to: TransferStatus)
    | StartPayout(w: nat, p: nat)
    | StartEvent(w: nat, ref: Reference, event: TransferEvent, given: Option<string>)
    | StartSettle(w: nat, t: nat)
    | Retry(p: nat)
    | Advance(w: nat, choice: Choice)
    | Crash(w: nat)

  // ---------------------------------------------------------------- steps of one worker

  function Goto(s: State, w: nat, pc: Pc): State
    requires w in s.workers
  {
    s.(workers := s.workers[w := s.workers[w].(pc := pc)])
  }

  function Done(s: State, w: nat): State {
    s.(workers := s.workers - {w})
  }

  function WithBooks(s: State, b: Books): State {
    s.(books := b)
  }

  function StatusOf(s: State, ref: Reference): Option<TransferStatus> {
    if ref in s.transfers then Some(s.transfers[ref].status) else None
  }

  /** The unique row carrying this transfer reference. */
  function FindByReference(payouts: seq<Payout>, ref: Reference): Option<nat> {
    if |payouts| == 0 then None
    else if payouts[|payouts| - 1].transferReference == Some(ref) then Some(|payouts| - 1)
    else FindByReference(payouts[..|payouts| - 1], ref)
  }

  function StepPayoutRead(s: State, w: nat, p: nat): State
    requires w in s.workers
  {
    if p >= |s.books.payouts| || !IsOpen(s.books.payouts[p].status) then Done(s, w)
    else
      var seen := s.books.payouts[p];
      if seen.transferReference.Some? then Goto(s, w, PayoutVerify(p, seen)) else Goto(s, w, PayoutResolve(p, seen))
  }

  function StepPayoutVerify(s: State, w: nat, p: nat, seen: Payout): State
    requires w in s.workers
  {
    if seen.transferReference.None? then Goto(s, w, PayoutResolve(p, seen))
    else
      match StatusOf(s, seen.transferReference.value)
      case Some(Delivered) => Goto(s, w, MarkRead(p, seen.transferReference.value))
      case Some(InFlight) => Done(s, w)
      case Some(AwaitingAction) => Goto(s, w, FlagWrite(p))
      case _ => Goto(s, w, PayoutResolve(p, seen))
  }

  function StepPayoutResolve(s: State, w: nat, p: nat, seen: Payout, verdict: Verdict): State
    requires w in s.workers
  {
    match verdict
    case Review(why) => Goto(s, w, ReviewWrite(p, BadDestination(why)))
    case Hold => if seen.status != QUEUED then Goto(s, w, PayoutHold(p, seen.status)) else Done(s, w)
    case Send(payee) => Goto(s, w, PayoutClaim(p, seen, payee))
  }

  function StepPayoutClaim(s: State, w: nat, p: nat, seen: Payout, payee: Payee): State
    requires w in s.workers && p < |s.books.payouts|
  {
    if !CanClaim(s.books, p, seen.attempts) then Done(s, w)
    else Goto(WithBooks(s, ClaimPayout(s.books, p, seen.attempts)).(claims := s.claims
                                                                    + [Claim(w, p, seen.attempts + 1)]),
              w, PayoutRecipient(p, seen.attempts + 1, payee))
  }

  /** A recipient code stands for one account for good: it is new, or was given out for this very account. */
  predicate CodeFits(recipients: map<string, BankAccount>, code: string, account: BankAccount) {
    code in recipients ==> recipients[code] == account
  }

  function StepPayoutRecipient(s: State, w: nat, p: nat, attempt: nat, payee: Payee, code: string): State
    requires w in s.workers
  {
    if !CodeFits(s.recipients, code, payee.account) then Done(s, w)
    else Goto(s.(recipients := s.recipients[code := payee.account]), w, PayoutRecipientSave(p, attempt, code))
  }

  /** The provider deduplicates by reference: a second initiation only reports the first one. */
  function StepPayoutInitiate(s: State, w: nat, p: nat, attempt: nat, code: string, choice: Choice): State
    requires w in s.workers && p < |s.books.payouts| && code in s.recipients
  {
    var ref := Reference(p, attempt);
    var landed := if ref in s.transfers then s.transfers[ref]
        else Transfer(choice.lands, s.books.payouts[p].amountKobo, s.recipients[code]);
    var s' := s.(transfers := s.transfers[ref := landed],
                 everDelivered := if landed.status == Delivered then s.everDelivered + {ref} else s.everDelivered);
    match landed.status
    case Delivered => Goto(s', w, MarkRead(p, ref))
    case InFlight => Done(s', w)
    case AwaitingAction => Goto(s', w, FlagWrite(p))
    case _ => Goto(s', w, EventRead(ref, TransferFailed, choice.given))
  }

  function StepEventRead(s: State, w: nat, ref: Reference, event: TransferEvent, given: Option<string>): State
    requires w in s.workers
  {
    var found := FindByReference(s.books.payouts, ref);
    if found.None? || found.value >= |s.books.payouts| then Done(s, w)
    else
      var p, row := found.value, s.books.payouts[found.value];
      if event == TransferSucceeded then Goto(s, w, MarkRead(p, ref))
      else if event == TransferReversed && row.status == PayoutStatus.SUCCESS then
        match PayoutReversalEntries(row.account, row.amountKobo)
        case Ok(entries) => Goto(s, w, EventReverse(p, ref, entries, given, row.attempts))
        case Err(_) => Done(s, w)
      else if row.status != PayoutStatus.SUCCESS then Goto(s, w, EventFail(p, ref, event, given, row.attempts))
      else Done(s, w)
  }

  /** After a failed or reversed attempt: review once the automatic attempts are used up, else re-enqueue. */
  function AfterFailure(s: State, w: nat, p: nat, event: TransferEvent, given: Option<string>, attempts: nat): State
    requires w in s.workers
  {
    if attempts >= MAX_AUTOMATIC_TRANSFER_ATTEMPTS
    then Goto(s, w, ReviewWrite(p, TooManyAttempts(event, attempts, given)))
    else Done(s, w)
  }

  function StepEventReverse(s: State, w: nat, p: nat, ref: Reference, entries: seq<EntrySpec>, given: Option<string>,
                            seenAttempts: nat): State
    requires w in s.workers && p < |s.books.payouts|
  {
    if !CanReverse(s.books, p, ref) then Done(s, w)
    else AfterFailure(WithBooks(s, ReversePayout(s.books, p, ref, entries, given)), w, p, TransferReversed, given,
                      seenAttempts)
  }

  function StepMarkRead(s: State, w: nat, p: nat, ref: Reference): State
    requires w in s.workers && p < |s.books.payouts|
  {
    match PayoutEntries(s.books.payouts[p].account, s.books.payouts[p].amountKobo)
    case Ok(entries) => Goto(s, w, MarkCommit(p, ref, entries))
    case Err(_) => Done(s, w)
  }

  function StepSettleRead(s: State, w: nat, t: nat): State
    requires w in s.workers
  {
    if t >= |s.books.payments| || !IsSettleable(s.books.payments[t].status) then Done(s, w)
    else Goto(s, w, SettleVerify(t, s.books.payments[t]))
  }

  /** The provider's report matches what was initialized. */
  predicate ChargeMatches(charge: Charge, quoted: Payment) {
    && charge.Paid? && charge.amountKobo == quoted.terms.grossAmountKobo
    && (charge.currency.None? || charge.currency.value in {"", SETTLEMENT_CURRENCY})
    && quoted.splitRuleId.Some?
  }

  function StepSettleVerify(s: State, w: nat, t: nat, quoted: Payment): State
    requires w in s.workers && t < |s.charges|
  {
    match s.charges[t]
    case ChargeFailed => Goto(s, w, SettleMove(t, {CREATED, PENDING}, PaymentStatus.FAILED))
    case Unpaid => Goto(s, w, SettleMove(t, {CREATED}, PENDING))
    case Paid(_, _) => if ChargeMatches(s.charges[t], quoted) then Goto(s, w, SettleRule(t, quoted)) else Done(s, w)
  }

  function StepSettleRule(s: State, w: nat, t: nat, quoted: Payment): State
    requires w in s.workers
  {
    match SplitLines(s.books, quoted)
    case Ok(entries) => Goto(s, w, SettleCommit(t, entries))
    case Err(_) => Done(s, w)
  }

  /** One step of a worker; a worker whose row does not exist ends. */
  function Step(s: State, w: nat, choice: Choice): State
    requires w in s.workers
  {
    match s.workers[w].pc
    case PayoutRead(p) => StepPayoutRead(s, w, p)
    case PayoutVerify(p, seen) => StepPayoutVerify(s, w, p, seen)
    case PayoutResolve(p, seen) => StepPayoutResolve(s, w, p, seen, choice.verdict)
    case PayoutHold(p, was) =>
      if p < |s.books.payouts| then Done(WithBooks(s, HoldPayout(s.books, p, was)), w) else Done(s, w)
    case PayoutClaim(p, seen, payee) =>
      if p < |s.books.payouts| then StepPayoutClaim(s, w, p, seen, payee) else Done(s, w)
    case PayoutRecipient(p, attempt, payee) => StepPayoutRecipient(s, w, p, attempt, payee, choice.recipient)
    case PayoutRecipientSave(p, attempt, code) =>
      if p < |s.books.payouts|
      then Goto(WithBooks(s, SaveRecipient(s.books, p, code)), w, PayoutInitiate(p, attempt, code))
      else Done(s, w)
    case PayoutInitiate(p, attempt, code) =>
      if p < |s.books.payouts| && code in s.recipients then StepPayoutInitiate(s, w, p, attempt, code, choice)
      else Done(s, w)
    case EventRead(ref, event, given) => StepEventRead(s, w, ref, event, given)
    case EventFail(p, ref, event, given, seenAttempts) =>
      if p < |s.books.payouts|
      then AfterFailure(WithBooks(s, FailAttempt(s.books, p, ref, event, given)), w, p, event, given, seenAttempts)
      else Done(s, w)
    case EventReverse(p, ref, entries, given, seenAttempts) =>
      if p < |s.books.payouts| then StepEventReverse(s, w, p, ref, entries, given, seenAttempts) else Done(s, w)
    case MarkRead(p, ref) => if p < |s.books.payouts| then StepMarkRead(s, w, p, ref) else Done(s, w)
    case MarkCommit(p, ref, entries) =>
      if p < |s.books.payouts| then Done(WithBooks(s, SucceedPayout(s.books, p, ref, entries)), w) else Done(s, w)
    case FlagWrite(p) => if p < |s.books.payouts| then Done(WithBooks(s, FlagPayout(s.books, p)), w) else Done(s, w)
    case ReviewWrite(p, cause) =>
      if p < |s.books.payouts| then Done(WithBooks(s, ReviewPayout(s.books, p, cause)), w) else Done(s, w)
    case SettleRead(t) => StepSettleRead(s, w, t)
    case SettleVerify(t, quoted) => if t < |s.charges| then StepSettleVerify(s, w, t, quoted) else Done(s, w)
    case SettleMove(t, from, to) =>
      if t < |s.books.payments| then Done(WithBooks(s, MovePayment(s.books, t, from, to)), w) else Done(s, w)
    case SettleRule(t, quoted) => StepSettleRule(s, w, t, quoted)
    case SettleCommit(t, entries) =>
      if t < |s.books.payments| then Done(WithBooks(s, SettlePayment(s.books, t, entries)), w) else Done(s, w)
  }

  // ---------------------------------------------------------------- runs

  predicate Serves(s: State, p: nat) {
    exists w <- s.workers.Keys :: s.workers[w].serves == Some(p)
  }

  function Spawn(s: State, w: nat, worker: Worker): State {
    if w in s.workers then s else s.(workers := s.workers[w := worker])
  }

  /** One action; an action that is not enabled changes nothing. With serial set, the queue runs at most one
      processPayout job per payout at a time. A success event is only ever sent for a transfer that succeeded;
      failed and reversed events are not trusted at all. */
  function Apply(serial: bool, s: State, a: Action): State {
    match a
    case NewRule(split) => WithBooks(s, AddRule(s.books, split))
    case NewPayment(terms, ruleId, checkoutOpened) =>
      WithBooks(s, AddPayment(s.books, Payment(terms, ruleId, if checkoutOpened then CREATED
                                               else PaymentStatus.FAILED)))
      .(charges := s.charges + [Unpaid])
    case ChargeMoves(t, charge) =>
      if t < |s.charges| && !s.charges[t].Paid? then s.(charges := s.charges[t := charge]) else s
    case TransferMoves(ref, to) =>
      if ref in s.transfers && MayBecome(s.transfers[ref].status, to)
      then s.(transfers := s.transfers[ref := s.transfers[ref].(status := to)],
              everDelivered := if to == Delivered then s.everDelivered + {ref} else s.everDelivered)
      else s
    case StartPayout(w, p) => if serial && Serves(s, p) then s else Spawn(s, w, Worker(Some(p), PayoutRead(p)))
    case StartEvent(w, ref, event, given) =>
      if event == TransferSucceeded && ref !in s.everDelivered then s
      else Spawn(s, w, Worker(None, EventRead(ref, event, given)))
    case StartSettle(w, t) => Spawn(s, w, Worker(None, SettleRead(t)))
    case Retry(p) => if p < |s.books.payouts| then WithBooks(s, RetryPayout(s.books, p)) else s
    case Advance(w, choice) => if w in s.workers then Step(s, w, choice) else s
    case Crash(w) => Done(s, w)
  }

  /** The state after a sequence of actions. */
  function Run(serial: bool, s: State, actions: seq<Action>): State {
    if |actions| == 0 then s
    else Apply(serial, Run(serial, s, actions[..|actions| - 1]), actions[|actions| - 1])
  }

  lemma {:induction false} RunConcat(serial: bool, s: State, xs: seq<Action>, ys: seq<Action>)
    ensures Run(serial, s, xs + ys) == Run(serial, Run(serial, s, xs), ys)
  {
    if |ys| == 0 {
      assert xs + ys == xs;
    } else {
      assert (xs + ys)[..|xs + ys| - 1] == xs + ys[..|ys| - 1];
      RunConcat(serial, s, xs, ys[..|ys| - 1]);
    }
  }
}
