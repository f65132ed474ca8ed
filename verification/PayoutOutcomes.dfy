/** What one undisturbed call of PayoutsService leaves behind, given what it finds out and cannot reach outside. */
module PayoutOutcomes {
  import opened Wrappers
  import opened Ledger
  import opened Tables
  import opened Protocol

  /** How putting a job on the queue went: a call that threw may still have added it. */
  datatype Queueing = Queueing(threw: bool, added: bool)

  /** What the providers answer during one processPayout, and where they cannot be reached. */
  datatype Outside = Outside(
    verifyDown: bool, recipientDown: bool, recipient: string,
    transferLost: bool, lands: TransferStatus, given: Option<string>, answerLost: bool, queueing: Queueing)

  predicate IsDown(outside: Outside) {
    outside.verifyDown || outside.recipientDown || outside.transferLost || outside.answerLost || outside.queueing.threw
  }

  datatype Effect = Effect(books: Books, transfers: map<Reference, Transfer>, enqueued: set<nat>, threw: bool)

  function Quietly(b: Books, transfers: map<Reference, Transfer>): Effect {
    Effect(b, transfers, {}, false)
  }

  function MarkNow(b: Books, transfers: map<Reference, Transfer>, p: nat, ref: Reference): Effect
    requires p < |b.payouts|
  {
    match PayoutEntries(b.payouts[p].account, b.payouts[p].amountKobo)
    case Ok(entries) => Quietly(SucceedPayout(b, p, ref, entries), transfers)
    case Err(_) => Effect(b, transfers, {}, true)
  }

  /** After a failed or reversed attempt: for review once the attempts are used up, otherwise back on the queue. */
  function FailedNow(b: Books, transfers: map<Reference, Transfer>, p: nat, event: TransferEvent, given: Option<string>,
                     attempts: nat, queueing: Queueing): Effect
    requires p < |b.payouts|
  {
    if attempts >= MAX_AUTOMATIC_TRANSFER_ATTEMPTS
    then Quietly(ReviewPayout(b, p, TooManyAttempts(event, attempts, given)), transfers)
    else Effect(b, transfers, if queueing.added then {p} else {}, queueing.threw)
  }

  function ReverseNow(b: Books, transfers: map<Reference, Transfer>, p: nat, ref: Reference, given: Option<string>,
                      queueing: Queueing): Effect
    requires p < |b.payouts|
  {
    match PayoutReversalEntries(b.payouts[p].account, b.payouts[p].amountKobo)
    case Err(_) => Effect(b, transfers, {}, true)
    case Ok(entries) =>
      if !CanReverse(b, p, ref) then Quietly(b, transfers)
      else FailedNow(ReversePayout(b, p, ref, entries, given), transfers, p, TransferReversed, given,
                     b.payouts[p].attempts, queueing)
  }

  function EventNow(b: Books, transfers: map<Reference, Transfer>, ref: Reference, event: TransferEvent,
                    given: Option<string>, queueing: Queueing): Effect
  {
    var found := FindByReference(b.payouts, ref);
    if found.None? || found.value >= |b.payouts| then Quietly(b, transfers)
    else
      var p := found.value;
      if event == TransferSucceeded then MarkNow(b, transfers, p, ref)
      else if event == TransferReversed && b.payouts[p].status == PayoutStatus.SUCCESS
      then ReverseNow(b, transfers, p, ref, given, queueing)
      else if b.payouts[p].status != PayoutStatus.SUCCESS
      then FailedNow(FailAttempt(b, p, ref, event, given), transfers, p, event, given, b.payouts[p].attempts, queueing)
      else Quietly(b, transfers)
  }

  /** What a transfer's status, once known, leads to. */
  function LandedNow(b: Books, transfers: map<Reference, Transfer>, p: nat, ref: Reference, status: TransferStatus,
                     given: Option<string>, queueing: Queueing): Effect
    requires p < |b.payouts|
  {
    match status
    case Delivered => MarkNow(b, transfers, p, ref)
    case InFlight => Quietly(b, transfers)
    case AwaitingAction => Quietly(FlagPayout(b, p), transfers)
    case _ => EventNow(b, transfers, ref, TransferFailed, given, queueing)
  }

  /** Initiate with the payout's own amount; a reference the provider knows only reports the transfer it has. */
  function InitiateNow(b: Books, transfers: map<Reference, Transfer>, p: nat, ref: Reference, to: BankAccount,
                       outside: Outside): Effect
    requires p < |b.payouts|
  {
    if outside.transferLost then Effect(b, transfers, {}, true)
    else
      var landed := if ref in transfers then transfers[ref] else Transfer(outside.lands, b.payouts[p].amountKobo, to);
      var sent := transfers[ref := landed];
      if outside.answerLost then Effect(b, sent, {}, true)
      else LandedNow(b, sent, p, ref, landed.status, outside.given, outside.queueing)
  }

  /** Claim the attempt with its reference, create and store the recipient, and initiate a transfer to that account. */
  function AttemptNow(b: Books, transfers: map<Reference, Transfer>, p: nat, to: BankAccount, outside: Outside): Effect
    requires p < |b.payouts|
  {
    var attempts := b.payouts[p].attempts;
    if !CanClaim(b, p, attempts) then Quietly(b, transfers)
    else
      var claimed := ClaimPayout(b, p, attempts);
      if outside.recipientDown then Effect(claimed, transfers, {}, true)
      else InitiateNow(SaveRecipient(claimed, p, outside.recipient), transfers, p, Reference(p, attempts + 1), to,
                       outside)
  }

  lemma ReadyToInitiate(b: Books, ready: Books, transfers: map<Reference, Transfer>, p: nat, to: BankAccount,
                        outside: Outside)
    requires p < |b.payouts| && CanClaim(b, p, b.payouts[p].attempts) && !outside.recipientDown
    requires ready == SaveRecipient(ClaimPayout(b, p, b.payouts[p].attempts), p, outside.recipient)
    ensures AttemptNow(b, transfers, p, to, outside)
            == InitiateNow(ready, transfers, p, Reference(p, b.payouts[p].attempts + 1), to, outside)
  {
  }

  function SendNow(b: Books, transfers: map<Reference, Transfer>, p: nat, verdict: Verdict, outside: Outside): Effect
    requires p < |b.payouts|
  {
    match verdict
    case Review(why) => Quietly(ReviewPayout(b, p, BadDestination(why)), transfers)
    case Hold =>
      Quietly(if b.payouts[p].status == QUEUED then b else HoldPayout(b, p, b.payouts[p].status), transfers)
    case Send(payee) => AttemptNow(b, transfers, p, payee.account, outside)
  }

  /** processPayout from start to end with nobody in between. */
  function ProcessNow(b: Books, transfers: map<Reference, Transfer>, p: nat, verdict: Verdict,
                      outside: Outside): Effect {
    if p >= |b.payouts| || !IsOpen(b.payouts[p].status) then Quietly(b, transfers)
    else
      var previous := b.payouts[p].transferReference;
      if previous.None? then SendNow(b, transfers, p, verdict, outside)
      else if outside.verifyDown then Effect(b, transfers, {}, true)
      else if previous.value in transfers && IsLive(transfers[previous.value].status)
      then LandedNow(b, transfers, p, previous.value, transfers[previous.value].status, None, outside.queueing)
      else SendNow(b, transfers, p, verdict, outside)
  }
}
