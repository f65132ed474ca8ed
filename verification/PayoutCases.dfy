/** What an undisturbed call of PayoutsService comes to, case by case: by the row's status, what happened to the old
    transfer, the event, and the number of attempts. Statuses, lines and limits are written out. */
module PayoutCases {
  import opened Wrappers
  import opened Ledger
  import opened Tables
  import opened Protocol
  import opened PayoutOutcomes
  import Guarantees
  import Safety

  // ---------------------------------------------------------------- the vocabulary

  /** Row p is this one now, these postings are new, and nothing else in the tables has changed. */
  predicate Became(b: Books, c: Books, p: nat, row: Payout, posted: seq<Posting>)
    requires p < |b.payouts|
  {
    c == Books(b.rules, b.payments, b.payouts[p := row], b.journal + posted)
  }

  /** The payable account and the amount a posting can be made for. */
  predicate IsDebt(row: Payout) {
    && row.account.kind in {EntertainerPayable, VenuePayable}
    && row.account.owner.Some? && row.account.owner.value != "" && 0 < row.amountKobo < 0x20_0000_0000_0000
  }

  /** The debt is off the books: payable down, clearing down. */
  function PaidPosting(row: Payout): Posting {
    Posting(row.transactionId, [EntrySpec(row.account, Debit, row.amountKobo),
                                EntrySpec(Account(ProcessorClearing, None), Credit, row.amountKobo)])
  }

  /** The debt is back on the books. */
  function ReturnedPosting(row: Payout): Posting {
    Posting(row.transactionId, [EntrySpec(row.account, Credit, row.amountKobo),
                                EntrySpec(Account(ProcessorClearing, None), Debit, row.amountKobo)])
  }

  lemma DebtsCanBePosted(row: Payout)
    ensures CanPayOut(row.account, row.amountKobo) <==> IsDebt(row)
    ensures PayoutEntries(row.account, row.amountKobo)
            == if IsDebt(row) then Ok(PaidPosting(row).entries) else Err(InvalidPosting)
    ensures PayoutReversalEntries(row.account, row.amountKobo)
            == if IsDebt(row) then Ok(ReturnedPosting(row).entries) else Err(InvalidPosting)
  {
    assert ReversalLines(row.account, row.amountKobo) == ReturnedPosting(row).entries;
  }

  /** Before the third attempt a failure goes back on the queue; from the third on a person has to look at it. */
  function FailedRow(row: Payout, event: TransferEvent, given: Option<string>): Payout {
    if row.attempts < 3
    then row.(status := RETRYING, failureReason := Some(if given.Some? then Given(given.value) else DefaultFor(event)))
    else row.(status := PayoutStatus.FAILED,
              failureReason := Some(ManualReview(TooManyAttempts(event, row.attempts, given))))
  }

  function Requeued(row: Payout, p: nat, queueing: Queueing): set<nat> {
    if row.attempts < 3 && queueing.added then {p} else {}
  }

  // ---------------------------------------------------------------- transfer events

  /** An event whose reference no row carries changes nothing. */
  lemma UnknownReference(b: Books, transfers: map<Reference, Transfer>, ref: Reference, event: TransferEvent,
                         given: Option<string>, queueing: Queueing)
    requires forall row <- b.payouts :: row.transferReference != Some(ref)
    ensures EventNow(b, transfers, ref, event, given, queueing) == Effect(b, transfers, {}, false)
  {
    Safety.Found(b.payouts, ref);
  }

  /** A success is recorded with its debit, from whatever status but SUCCESS; a second one changes nothing. */
  lemma SucceededEvent(b: Books, transfers: map<Reference, Transfer>, p: nat, ref: Reference, given: Option<string>,
                       queueing: Queueing)
    requires FindByReference(b.payouts, ref) == Some(p) && p < |b.payouts|
    ensures var row, effect := b.payouts[p], EventNow(b, transfers, ref, TransferSucceeded, given, queueing);
            && effect.transfers == transfers && effect.enqueued == {} && effect.threw == !IsDebt(row)
            && (row.status in {QUEUED, PROCESSING, PayoutStatus.FAILED, RETRYING, CANCELLED} && IsDebt(row) ==>
                  Became(b, effect.books, p, row.(status := PayoutStatus.SUCCESS, failureReason := None),
                         [PaidPosting(row)]))
            && (row.status == PayoutStatus.SUCCESS || !IsDebt(row) ==> effect.books == b)
  {
    Safety.Found(b.payouts, ref);
    DebtsCanBePosted(b.payouts[p]);
  }

  /** A reversal of a SUCCESS payout puts exactly its amount back on its account and out of SUCCESS. */
  lemma ReversedEvent(b: Books, transfers: map<Reference, Transfer>, p: nat, ref: Reference, given: Option<string>,
                      queueing: Queueing)
    requires FindByReference(b.payouts, ref) == Some(p) && p < |b.payouts|
    requires b.payouts[p].status == PayoutStatus.SUCCESS
    ensures var row, effect := b.payouts[p], EventNow(b, transfers, ref, TransferReversed, given, queueing);
            if !IsDebt(row) then effect == Effect(b, transfers, {}, true)
            else
              && Became(b, effect.books, p, FailedRow(row, TransferReversed, given), [ReturnedPosting(row)])
              && effect.transfers == transfers && effect.enqueued == Requeued(row, p, queueing)
              && effect.threw == (row.attempts < 3 && queueing.threw)
  {
    Safety.Found(b.payouts, ref);
    DebtsCanBePosted(b.payouts[p]);
  }

  /** A failure, or a reversal of what was never recorded as paid, posts nothing; a SUCCESS payout ignores failures. */
  lemma FailedEvent(b: Books, transfers: map<Reference, Transfer>, p: nat, ref: Reference, event: TransferEvent,
                    given: Option<string>, queueing: Queueing)
    requires FindByReference(b.payouts, ref) == Some(p) && p < |b.payouts|
    requires event == TransferFailed || (event == TransferReversed && b.payouts[p].status != PayoutStatus.SUCCESS)
    ensures var row, effect := b.payouts[p], EventNow(b, transfers, ref, event, given, queueing);
            if row.status == PayoutStatus.SUCCESS then effect == Effect(b, transfers, {}, false)
            else
              && Became(b, effect.books, p, FailedRow(row, event, given), [])
              && effect.transfers == transfers && effect.enqueued == Requeued(row, p, queueing)
              && effect.threw == (row.attempts < 3 && queueing.threw)
  {
    Safety.Found(b.payouts, ref);
  }

  // ---------------------------------------------------------------- processPayout

  /** A payout that is done, waits for a person or was cancelled is left alone, and so is one that does not exist. */
  lemma ClosedIsLeftAlone(b: Books, transfers: map<Reference, Transfer>, p: nat, verdict: Verdict, outside: Outside)
    requires p < |b.payouts| ==> b.payouts[p].status in {PayoutStatus.SUCCESS, PayoutStatus.FAILED, CANCELLED}
    ensures ProcessNow(b, transfers, p, verdict, outside) == Effect(b, transfers, {}, false)
  {
  }

  /** An old transfer that is pending is left to its event, one that awaits a person is flagged, one that arrived is
      recorded; and when the provider cannot be asked about it, nothing happens at all. */
  lemma OldTransferFirst(b: Books, transfers: map<Reference, Transfer>, p: nat, ref: Reference, verdict: Verdict,
                         outside: Outside)
    requires p < |b.payouts| && b.payouts[p].status in {QUEUED, RETRYING, PROCESSING}
    requires b.payouts[p].transferReference == Some(ref) && ref in transfers
    ensures var row, effect := b.payouts[p], ProcessNow(b, transfers, p, verdict, outside);
            && (outside.verifyDown ==> effect == Effect(b, transfers, {}, true))
            && (!outside.verifyDown && transfers[ref].status == InFlight ==> effect == Effect(b, transfers, {}, false))
            && (!outside.verifyDown && transfers[ref].status == AwaitingAction ==>
                  effect.transfers == transfers && effect.enqueued == {} && !effect.threw
                  && Became(b, effect.books, p, row.(failureReason := Some(ActionRequired)), []))
            && (!outside.verifyDown && transfers[ref].status == Delivered && IsDebt(row) ==>
                  effect.transfers == transfers && effect.enqueued == {} && !effect.threw
                  && Became(b, effect.books, p, row.(status := PayoutStatus.SUCCESS, failureReason := None),
                            [PaidPosting(row)]))
  {
    DebtsCanBePosted(b.payouts[p]);
  }

  /** Nothing was sent yet, or what was sent moved no money. */
  predicate MayBeSent(b: Books, transfers: map<Reference, Transfer>, p: nat) {
    && p < |b.payouts| && b.payouts[p].status in {QUEUED, RETRYING, PROCESSING}
    && var previous := b.payouts[p].transferReference;
       previous.Some? && previous.value in transfers ==> transfers[previous.value].status in {Bounced, Returned}
  }

  /** A destination that is not ready leaves the payout QUEUED, one that needs a person makes it FAILED. */
  lemma NotSent(b: Books, transfers: map<Reference, Transfer>, p: nat, why: string, outside: Outside)
    requires MayBeSent(b, transfers, p) && (outside.verifyDown ==> b.payouts[p].transferReference.None?)
    ensures var held, reviewed, row := ProcessNow(b, transfers, p, Hold, outside),
                ProcessNow(b, transfers, p, Review(why), outside), b.payouts[p];
            && held.transfers == reviewed.transfers == transfers && held.enqueued == reviewed.enqueued == {}
            && !held.threw && !reviewed.threw
            && Became(b, held.books, p, row.(status := QUEUED), [])
            && Became(b, reviewed.books, p,
                      row.(status := PayoutStatus.FAILED, failureReason := Some(ManualReview(BadDestination(why)))), [])
  {
  }

  /** The row once the next attempt is claimed. */
  function ClaimedRow(row: Payout, p: nat): Payout {
    row.(status := PROCESSING, attempts := row.attempts + 1, transferReference := Some(Reference(p, row.attempts + 1)),
         failureReason := None)
  }

  /** The claim with its new reference is stored before anything is asked of the provider. */
  lemma ClaimedBeforeAsking(b: Books, transfers: map<Reference, Transfer>, p: nat, payee: Payee, outside: Outside)
    requires MayBeSent(b, transfers, p) && (outside.verifyDown ==> b.payouts[p].transferReference.None?)
    requires outside.recipientDown || outside.transferLost
    ensures var claimed, effect := ClaimedRow(b.payouts[p], p), ProcessNow(b, transfers, p, Send(payee), outside);
            && effect.transfers == transfers && effect.enqueued == {} && effect.threw
            && Became(b, effect.books, p, if outside.recipientDown then claimed
                                          else claimed.(recipientCode := Some(outside.recipient)), [])
  {
  }

  predicate Reached(outside: Outside) {
    !outside.recipientDown && !outside.transferLost
  }

  /** The next attempt sends the payout's own amount to the account resolved for it, and ends as the transfer landed:
      still PROCESSING, flagged, SUCCESS with its debit, or back to RETRYING or FAILED with nothing posted. */
  lemma NextAttempt(b: Books, transfers: map<Reference, Transfer>, p: nat, payee: Payee, outside: Outside)
    requires PayoutsOk(b) && MayBeSent(b, transfers, p)
    requires (outside.verifyDown ==> b.payouts[p].transferReference.None?) && Reached(outside)
    requires Reference(p, b.payouts[p].attempts + 1) !in transfers
    ensures var row := b.payouts[p];
            var sent := ClaimedRow(row, p).(recipientCode := Some(outside.recipient));
            var effect := ProcessNow(b, transfers, p, Send(payee), outside);
            && effect.transfers == transfers[Reference(p, row.attempts + 1)
                                             := Transfer(outside.lands, row.amountKobo, payee.account)]
            && (outside.answerLost || outside.lands == InFlight ==>
                  Became(b, effect.books, p, sent, []) && effect.enqueued == {} && effect.threw == outside.answerLost)
            && (!outside.answerLost && outside.lands == AwaitingAction ==>
                  Became(b, effect.books, p, sent.(failureReason := Some(ActionRequired)), [])
                  && effect.enqueued == {} && !effect.threw)
            && (!outside.answerLost && outside.lands == Delivered && IsDebt(row) ==>
                  Became(b, effect.books, p, sent.(status := PayoutStatus.SUCCESS), [PaidPosting(row)])
                  && effect.enqueued == {} && !effect.threw)
            && (!outside.answerLost && outside.lands in {Bounced, Returned} ==>
                  Became(b, effect.books, p, FailedRow(sent, TransferFailed, outside.given), [])
                  && effect.enqueued == Requeued(sent, p, outside.queueing)
                  && effect.threw == (sent.attempts < 3 && outside.queueing.threw))
  {
    var row, ref := b.payouts[p], Reference(p, b.payouts[p].attempts + 1);
    var ready := SaveRecipient(ClaimPayout(b, p, row.attempts), p, outside.recipient);
    var sent := ClaimedRow(row, p).(recipientCode := Some(outside.recipient));
    assert ready.payouts == b.payouts[p := sent];
    OnlyItsRow(b, p, sent, ref);
    DebtsCanBePosted(sent);
    FailedEvent(ready, transfers[ref := Transfer(outside.lands, row.amountKobo, payee.account)], p, ref, TransferFailed,
                outside.given, outside.queueing);
  }

  /** A reference of payout p is found at row p. */
  lemma OnlyItsRow(b: Books, p: nat, row: Payout, ref: Reference)
    requires PayoutsOk(b) && p < |b.payouts| && ref.payout == p && row.transferReference == Some(ref)
    ensures FindByReference(b.payouts[p := row], ref) == Some(p)
  {
    var rows := b.payouts[p := row];
    forall q | 0 <= q < |rows| && q != p ensures rows[q].transferReference != Some(ref) {
      assert PayoutOk(b, q);
    }
    Safety.Found(rows, ref);
    Guarantees.FindsAny(rows, p, ref);
  }

  // ---------------------------------------------------------------- manual retry

  /** A person's retry reopens exactly a FAILED payout, and a run that was refused it may send it again. */
  lemma RetriedMayBeSent(b: Books, transfers: map<Reference, Transfer>, p: nat)
    requires p < |b.payouts|
    ensures var row, c := b.payouts[p], RetryPayout(b, p);
            && (row.status == PayoutStatus.FAILED ==>
                  && Became(b, c, p, row.(status := RETRYING, failureReason := None), [])
                  && (MayBeSent(c, transfers, p) <==>
                        row.transferReference.Some? && row.transferReference.value in transfers ==>
                          transfers[row.transferReference.value].status in {Bounced, Returned}))
            && (row.status in {QUEUED, PROCESSING, PayoutStatus.SUCCESS, RETRYING, CANCELLED} ==> c == b)
  {
  }
}
