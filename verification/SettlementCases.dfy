/** What an undisturbed settlement, status poll, webhook handling or queued job comes to, case by case. Statuses,
    currency and shares are written out. */
module SettlementCases {
  import opened Wrappers
  import opened Ledger
  import opened Tables
  import opened TablesInvariant
  import opened Protocol
  import opened Safety
  import opened Webhooks
  import Guarantees

  // ---------------------------------------------------------------- settle

  /** Only payment t is another one now. */
  function WithStatus(b: Books, t: nat, status: PaymentStatus): Books
    requires t < |b.payments|
  {
    Books(b.rules, b.payments[t := Payment(b.payments[t].terms, b.payments[t].splitRuleId, status)], b.payouts,
          b.journal)
  }

  predicate IsUnsettled(b: Books, t: nat) {
    t < |b.payments| && b.payments[t].status in {CREATED, PENDING, PaymentStatus.FAILED, ABANDONED}
  }

  /** A settled or refunded payment, or none, is left alone, whatever the provider says; so is one the provider cannot
      be asked about. */
  lemma SettledIsLeftAlone(b: Books, charge: Charge, t: nat, providerDown: bool)
    ensures !IsUnsettled(b, t) ==> SettleNow(b, charge, t, providerDown) == Settlement(b, None)
    ensures IsUnsettled(b, t) && providerDown ==>
              SettleNow(b, charge, t, providerDown) == Settlement(b, Some(ProviderDown))
  {
  }

  /** A charge not paid yet makes CREATED pending, a failed one makes CREATED and PENDING failed; nothing else moves. */
  lemma UnpaidOnlyMovesStatus(b: Books, t: nat)
    requires IsUnsettled(b, t)
    ensures var status := b.payments[t].status;
            && SettleNow(b, Unpaid, t, false)
               == Settlement(WithStatus(b, t, if status == CREATED then PENDING else status), None)
            && SettleNow(b, ChargeFailed, t, false)
               == Settlement(WithStatus(b, t, if status in {CREATED, PENDING} then PaymentStatus.FAILED else status),
                             None)
  {
  }

  lemma MatchesMeans(charge: Charge, payment: Payment)
    ensures ChargeMatches(charge, payment) <==> charge.Paid? && !IsWrong(payment, charge.amountKobo, charge.currency)
  {
  }

  /** A wrong success is refused with nothing written. */
  lemma WrongSuccessIsRefused(b: Books, t: nat, amountKobo: int, currency: Option<string>)
    requires IsUnsettled(b, t)
    ensures SettleNow(b, Paid(amountKobo, currency), t, false) == Settlement(b, Some(IntegrityMismatch))
            <==> IsWrong(b.payments[t], amountKobo, currency)
  {
  }

  /** The rule exists, its parts are parts of 10000, and the amount is a positive safe integer. */
  predicate IsDivisible(b: Books, t: nat)
    requires t < |b.payments|
  {
    var gross, rule := b.payments[t].terms.grossAmountKobo, b.payments[t].splitRuleId;
    && 0 < gross < 0x20_0000_0000_0000 && rule.Some? && rule.value < |b.rules|
    && var split := b.rules[rule.value];
       && 0 <= split.entertainerBps && 0 <= split.venueBps && 0 <= split.platformBps
       && split.entertainerBps + split.venueBps + split.platformBps == 10000
  }

  /** The entertainer's part, basis points of the gross rounded down; nothing without an entertainer. */
  function ToEntertainer(terms: PaymentForPosting, split: Split): int {
    if terms.entertainerId == None || terms.entertainerId == Some("") then 0
    else terms.grossAmountKobo * split.entertainerBps / 10000
  }

  /** The venue's part, which takes in the entertainer's when there is none. */
  function ToVenue(terms: PaymentForPosting, split: Split): int {
    if terms.entertainerId == None || terms.entertainerId == Some("")
    then terms.grossAmountKobo * (split.venueBps + split.entertainerBps) / 10000
    else terms.grossAmountKobo * split.venueBps / 10000
  }

  /** The posting: the gross onto clearing, each part onto its own account, the rest to the platform; no empty lines. */
  function Division(terms: PaymentForPosting, split: Split): seq<EntrySpec> {
    var e, v := ToEntertainer(terms, split), ToVenue(terms, split);
    var rest := terms.grossAmountKobo - e - v;
    [EntrySpec(Account(ProcessorClearing, None), Debit, terms.grossAmountKobo)]
    + (if e > 0 then [EntrySpec(Account(EntertainerPayable, terms.entertainerId), Credit, e)] else [])
    + (if v > 0 then [EntrySpec(Account(VenuePayable, Some(terms.venueId)), Credit, v)] else [])
    + if rest > 0 then [EntrySpec(Account(PlatformRevenue, None), Credit, rest)] else []
  }

  /** The payouts: the entertainer's and the venue's, waiting, with no attempt made. */
  function Waiting(t: nat, terms: PaymentForPosting, split: Split): seq<Payout> {
    var e, v := ToEntertainer(terms, split), ToVenue(terms, split);
    (if e > 0 then [Payout(Account(EntertainerPayable, terms.entertainerId), t, e, QUEUED, 0, None, None, None)]
     else [])
    + if v > 0 then [Payout(Account(VenuePayable, Some(terms.venueId)), t, v, QUEUED, 0, None, None, None)] else []
  }

  lemma DivisionIsPosted(t: nat, terms: PaymentForPosting, split: Split)
    requires ValidSplit(split) && ValidGross(terms.grossAmountKobo)
    ensures PaymentLines(terms, split) == Division(terms, split)
    ensures NewPayouts(Obligations(Division(terms, split)), t) == Waiting(t, terms, split)
  {
    SplitExactness(terms, split);
    SettlementObligations(terms, split);
    assert EntertainerShare(terms, split) == ToEntertainer(terms, split);
    assert VenueShare(terms, split) == ToVenue(terms, split);
  }

  /** A matching success settles from each of the four statuses: SUCCESS, the division posted, a payout per debt. */
  lemma RightSuccessSettles(b: Books, t: nat, amountKobo: int, currency: Option<string>)
    requires IsUnsettled(b, t) && !IsWrong(b.payments[t], amountKobo, currency)
    ensures var terms := b.payments[t].terms;
            if !IsDivisible(b, t) then SettleNow(b, Paid(amountKobo, currency), t, false)
                == Settlement(b, Some(NoDivision))
            else
              var split, settled := b.rules[b.payments[t].splitRuleId.value], WithStatus(b, t, PaymentStatus.SUCCESS);
              SettleNow(b, Paid(amountKobo, currency), t, false)
              == Settlement(settled.(journal := b.journal + [Posting(t, Division(terms, split))],
                                     payouts := b.payouts + Waiting(t, terms, split)), None)
  {
    MatchesMeans(Paid(amountKobo, currency), b.payments[t]);
    LinesAre(b, t);
  }

  lemma LinesAre(b: Books, t: nat)
    requires t < |b.payments|
    ensures var lines := SplitLines(b, b.payments[t]);
            && (lines.Ok? <==> IsDivisible(b, t))
            && (IsDivisible(b, t) ==>
                  var terms, split := b.payments[t].terms, b.rules[b.payments[t].splitRuleId.value];
                  && lines.value == Division(terms, split)
                  && NewPayouts(Obligations(lines.value), t) == Waiting(t, terms, split))
  {
    if IsDivisible(b, t) {
      DivisionIsPosted(t, b.payments[t].terms, b.rules[b.payments[t].splitRuleId.value]);
    }
  }

  predicate PaidInFull(charge: Charge, payment: Payment) {
    && charge.Paid? && charge.amountKobo == payment.terms.grossAmountKobo
    && charge.currency in {None, Some(""), Some("NGN")} && payment.splitRuleId.Some?
  }

  /** What the provider reports for payment t is a payment of its own amount, in naira or in no currency named. */
  predicate WasPaid(s: State, t: nat) {
    t < |s.books.payments| && t < |s.charges| && PaidInFull(s.charges[t], s.books.payments[t])
  }

  lemma SettledInvariant(s: State, t: nat)
    requires Inv(s) && t < |s.books.payments| && s.books.payments[t].status == PaymentStatus.SUCCESS
    ensures WasPaid(s, t)
  {
    assert IsSettled(s.books, t);
    MatchesMeans(s.charges[t], s.books.payments[t]);
  }

  /** In every run a settled payment was paid for. */
  lemma SettledMeansPaid(serial: bool, actions: seq<Action>, t: nat)
    requires t < |Run(serial, INITIAL, actions).books.payments|
    requires Run(serial, INITIAL, actions).books.payments[t].status == PaymentStatus.SUCCESS
    ensures WasPaid(Run(serial, INITIAL, actions), t)
  {
    Guarantees.AlwaysInv(serial, actions);
    SettledInvariant(Run(serial, INITIAL, actions), t);
  }

  // ---------------------------------------------------------------- polls, webhooks and jobs

  /** Event e is one the handler still has to handle, about payment t. */
  predicate IsOpenEvent(d: Desk, e: nat, t: nat) {
    && e < |d.events| && d.events[e].body == ChargeSuccess(t)
    && d.events[e].status in {Pending, Processing, ProcessingStatus.Failed}
  }

  /** While a payment is CREATED or PENDING a poll writes to it just what handling its event would; any other payment a
      poll leaves alone. Neither kind of call touches the other's queue. */
  lemma PollIsHandling(d: Desk, charge: Charge, e: nat, t: nat, providerDown: bool)
    requires IsOpenEvent(d, e, t)
    ensures var polled, handled := PollNow(d, charge, t, providerDown), HandleNow(d, charge, e, providerDown).desk;
            && polled == d.(books := polled.books)
            && (if t < |d.books.payments| && d.books.payments[t].status in {CREATED, PENDING}
                then polled.books == handled.books else polled.books == d.books)
            && handled.jobs == d.jobs && handled.retained == d.retained
  {
  }

  /** How an event ends: COMPLETED when settling threw nothing, otherwise FAILED; only what another attempt may get past
      is thrown again, so a wrong success is parked. A completed event is not handled twice. */
  lemma HandlingEnds(d: Desk, charge: Charge, e: nat, t: nat, providerDown: bool)
    requires e < |d.events| && d.events[e].body == ChargeSuccess(t)
    ensures var h, settled := HandleNow(d, charge, e, providerDown), SettleNow(d.books, charge, t, providerDown);
            if d.events[e].status == Completed then h == Handled(d, false)
            else
              && h.desk.books == settled.books
              && h.desk.events == d.events[e := WebhookEvent(d.events[e].externalEventId, ChargeSuccess(t),
                                                             if settled.error == None then Completed
                                                             else ProcessingStatus.Failed)]
              && h.threw == (settled.error in {Some(NoDivision), Some(ProviderDown)})
  {
  }

  /** A job whose handling throws stays queued, until the last attempt, after which its id is retained; any other job is
      done. A wrong success in particular is never tried again. */
  lemma JobEnds(d: Desk, charge: Charge, e: nat, t: nat, providerDown: bool, lastAttempt: bool)
    requires IsOpenEvent(d, e, t) && e in d.jobs
    ensures var settled := SettleNow(d.books, charge, t, providerDown);
            var after := WorkJob(d, charge, e, providerDown, lastAttempt);
            && after.books == settled.books
            && (settled.error in {None, Some(IntegrityMismatch)} ==>
                  after.jobs == d.jobs - {e} && after.retained == d.retained)
            && (settled.error in {Some(NoDivision), Some(ProviderDown)} && !lastAttempt ==>
                  after.jobs == d.jobs && after.retained == d.retained)
            && (settled.error in {Some(NoDivision), Some(ProviderDown)} && lastAttempt ==>
                  after.jobs == d.jobs - {e} && after.retained == d.retained + {e})
  {
  }
}
