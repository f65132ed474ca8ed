/** PaymentSettlementService and PaymentsService. */
module Payments {
  import opened Wrappers
  import opened Ledger
  import opened Tables
  import opened Protocol
  import opened Safety
  import opened Store
  import opened Webhooks

  datatype InitializeError =
    | SessionNotFound | SessionExpired | QrCodeInactive | VenueInactive | EntertainerInactive | NoActiveRule
    | CheckoutFailed

  /** The guest session with its QR code, venue and entertainer. */
  datatype GuestSession = GuestSession(
    expired: bool, qrActive: bool, venueId: string, venueActive: bool, entertainerId: Option<string>,
    entertainerActive: bool)

  class PaymentSettlementService {
    const db: Database

    constructor (db: Database)
      ensures this.db == db
    {
      this.db := db;
    }

    /** What the provider reports for payment t. */
    function ChargeOf(t: nat): Charge
      reads db
    {
      if t < |db.charges| then db.charges[t] else Unpaid
    }

    /** What a call leaves alone: charges and transfers. The queue gains only the new payouts, and all of them but those
        whose queueing threw. */
    ghost predicate Rest(charges: seq<Charge>, transfers: map<Reference, Transfer>, queue: set<nat>, payouts: nat,
                         refused: nat)
      reads db
    {
      && db.charges == charges && db.transfers == transfers && queue <= db.queue
      && (forall p <- db.queue :: p in queue || payouts <= p < |db.payouts|)
      && (forall p | payouts <= p < |db.payouts| :: db.IsAnnounced(p, refused))
    }

    /** Why a call threw although the provider answered: a wrong success, or nothing to divide by. */
    ghost predicate Because(error: SettleError, t: nat)
      reads db
    {
      match error
      case ProviderDown => false
      case IntegrityMismatch => IsMismatch(t)
      case NoDivision => t < |db.payments| && SplitLines(db.Contents(), db.payments[t]).Err?
    }

    ghost predicate IsMismatch(t: nat)
      reads db
    {
      && t < |db.payments| && t < |db.charges| && db.charges[t].Paid?
      && IsWrong(db.payments[t], db.charges[t].amountKobo, db.charges[t].currency)
    }

    /** One complete run of the settlement worker; with nobody else around, exactly SettleNow. */
    method Settle(ghost w: nat, t: nat) returns (r: Result<Option<Payment>, SettleError>)
      requires db.Valid() && db.Free(w)
      modifies db
      ensures db.Valid() && w !in db.workers && (r != Err(ProviderDown) ==> w !in db.brokenOff)
      ensures r == Err(ProviderDown) ==> exists seen :: db.BrokeOff(|old(db.actions)|, w, SettleVerify(t, seen))
      ensures r.Err? && r.error != ProviderDown ==> Because(r.error, t)
      ensures old(db.actions) + [StartSettle(w, t)] <= db.actions
      ensures r.Ok? ==> r.value == (if t < |db.payments| then Some(db.payments[t]) else None)
      ensures db.alone ==>
                && Settlement(db.Contents(), if r.Ok? then None else Some(r.error))
                   == SettleNow(old(db.Contents()), old(ChargeOf(t)), t, r == Err(ProviderDown))
                && Rest(old(db.charges), old(db.transfers), old(db.queue), |old(db.payouts)|, |old(db.refused)|)
    {
      db.BeginSettle(w, t);
      db.Elsewhere(w);
      var payment := db.FindPayment(w, t);
      if payment.None? {
        return Ok(None);
      }
      if !IsSettleable(payment.value.status) {
        return Ok(payment);
      }
      r := Confirm(w, t, payment.value);
    }

    /** Ask the provider, never trust the caller. */
    method Confirm(ghost w: nat, t: nat, payment: Payment) returns (r: Result<Option<Payment>, SettleError>)
      requires db.Valid() && db.At(w, SettleVerify(t, payment)) && w !in db.brokenOff
      requires IsSettleable(payment.status) && t < |db.payments| && db.payments[t] == payment
      modifies db
      ensures db.Valid() && w !in db.workers && (r != Err(ProviderDown) ==> w !in db.brokenOff)
      ensures r == Err(ProviderDown) ==> db.BrokeOff(|old(db.actions)|, w, SettleVerify(t, payment))
      ensures r.Err? && r.error != ProviderDown ==> Because(r.error, t)
      ensures old(db.actions) <= db.actions
      ensures r.Ok? ==> r.value == (if t < |db.payments| then Some(db.payments[t]) else None)
      ensures db.alone ==>
                && Settlement(db.Contents(), if r.Ok? then None else Some(r.error))
                   == SettleNow(old(db.Contents()), old(ChargeOf(t)), t, r == Err(ProviderDown))
                && Rest(old(db.charges), old(db.transfers), old(db.queue), |old(db.payouts)|, |old(db.refused)|)
    {
      var threw, charge := Ask(w, t, payment);
      if threw {
        return Err(ProviderDown);
      }
      r := Decide(w, t, payment, charge);
    }

    method Ask(ghost w: nat, t: nat, payment: Payment) returns (threw: bool, charge: Charge)
      requires db.Valid() && db.At(w, SettleVerify(t, payment)) && w !in db.brokenOff
      modifies db
      ensures db.Valid() && old(db.actions) <= db.actions
      ensures t < |db.payments| && SameQuote(payment, db.payments[t]) && t < |db.charges| && db.charges[t] == charge
      ensures if threw then w !in db.workers && db.BrokeOff(|old(db.actions)|, w, SettleVerify(t, payment))
              else w !in db.brokenOff && Reported(w, t, payment, charge)
      ensures db.alone ==>
                && db.Contents() == old(db.Contents()) && db.charges == old(db.charges)
                && db.transfers == old(db.transfers) && db.queue == old(db.queue) && db.refused == old(db.refused)
    {
      db.Elsewhere(w);
      threw, charge := db.VerifyPayment(w, t, payment);
    }

    /** How a run goes on from the provider's report. */
    ghost predicate Reported(w: nat, t: nat, payment: Payment, charge: Charge)
      reads db
    {
      match charge
      case ChargeFailed => db.At(w, SettleMove(t, {CREATED, PENDING}, PaymentStatus.FAILED))
      case Unpaid => db.At(w, SettleMove(t, {CREATED}, PENDING))
      case Paid(_, _) => if ChargeMatches(charge, payment) then db.At(w, SettleRule(t, payment)) else w !in db.workers
    }

    /** What the provider reported decides. */
    method Decide(ghost w: nat, t: nat, payment: Payment, charge: Charge)
      returns (r: Result<Option<Payment>, SettleError>)
      requires db.Valid() && w !in db.brokenOff && IsSettleable(payment.status)
      requires t < |db.payments| && SameQuote(payment, db.payments[t]) && (db.alone ==> db.payments[t] == payment)
      requires t < |db.charges| && db.charges[t] == charge
      requires Reported(w, t, payment, charge)
      modifies db
      ensures db.Valid() && w !in db.workers && w !in db.brokenOff && r != Err(ProviderDown)
      ensures old(db.actions) <= db.actions && (r.Err? ==> Because(r.error, t))
      ensures r.Ok? ==> r.value == (if t < |db.payments| then Some(db.payments[t]) else None)
      ensures db.alone ==>
                && Settlement(db.Contents(), if r.Ok? then None else Some(r.error))
                   == SettleNow(old(db.Contents()), charge, t, false)
                && Rest(old(db.charges), old(db.transfers), old(db.queue), |old(db.payouts)|, |old(db.refused)|)
    {
      match charge {
        case ChargeFailed => Transition(w, t, {CREATED, PENDING}, PaymentStatus.FAILED);
        case Unpaid => Transition(w, t, {CREATED}, PENDING);
        case Paid(amountKobo, currency) =>
          if Mismatch(payment, amountKobo, currency) {
            return Err(IntegrityMismatch);
          }
          r := SettlePaid(w, t, payment);
          return;
      }
      r := Reload(w, t);
    }

    method SettlePaid(ghost w: nat, t: nat, payment: Payment) returns (r: Result<Option<Payment>, SettleError>)
      requires db.Valid() && db.At(w, SettleRule(t, payment)) && w !in db.brokenOff && payment.splitRuleId.Some?
      modifies db
      ensures db.Valid() && w !in db.workers && w !in db.brokenOff && old(db.actions) <= db.actions
      ensures r == Err(NoDivision) || r == Ok(if t < |db.payments| then Some(db.payments[t]) else None)
      ensures r.Err? ==> Because(NoDivision, t)
      ensures db.alone ==> && (r.Err? <==> SplitLines(old(db.Contents()), payment).Err?)
                           && (r.Err? ==> db.Contents() == old(db.Contents()))
                           && (r.Ok? ==> && t < |old(db.payments)|
                                         && db.Contents() == Tables.SettlePayment(old(db.Contents()), t,
                                                              SplitLines(old(db.Contents()), payment).value))
                           && Rest(old(db.charges), old(db.transfers), old(db.queue), |old(db.payouts)|,
                                   |old(db.refused)|)
    {
      var failed := PostAndCreatePayouts(w, t, payment);
      if failed {
        return Err(NoDivision);
      }
      r := Reload(w, t);
    }

    /** Amount, currency or split snapshot is not what was initialized. */
    predicate Mismatch(payment: Payment, amountKobo: int, currency: Option<string>)
      ensures Mismatch(payment, amountKobo, currency) <==> !ChargeMatches(Paid(amountKobo, currency), payment)
      ensures Mismatch(payment, amountKobo, currency) <==> IsWrong(payment, amountKobo, currency)
    {
      || amountKobo != payment.terms.grossAmountKobo
      || (currency.Some? && currency.value != "" && currency.value != SETTLEMENT_CURRENCY)
      || payment.splitRuleId.None?
    }

    /** A conditional status update; losing it is no failure. */
    method Transition(ghost w: nat, t: nat, from: set<PaymentStatus>, to: PaymentStatus)
      requires db.Valid() && db.At(w, SettleMove(t, from, to)) && w !in db.brokenOff
      modifies db
      ensures db.Valid() && w !in db.workers && w !in db.brokenOff && old(db.actions) <= db.actions
      ensures db.alone ==>
                && t < |old(db.payments)| && db.Contents() == Tables.MovePayment(old(db.Contents()), t, from, to)
                && Rest(old(db.charges), old(db.transfers), old(db.queue), |old(db.payouts)|, |old(db.refused)|)
    {
      db.Elsewhere(w);
      db.MovePayment(w, t, from, to);
    }

    /** Divide by the quoted rule, then claim, post and create the payouts in one transaction; enqueue what it made. */
    method PostAndCreatePayouts(ghost w: nat, t: nat, quoted: Payment) returns (failed: bool)
      requires db.Valid() && db.At(w, SettleRule(t, quoted)) && w !in db.brokenOff && quoted.splitRuleId.Some?
      modifies db
      ensures db.Valid() && w !in db.workers && w !in db.brokenOff && old(db.actions) <= db.actions
      ensures failed ==> Because(NoDivision, t)
      ensures db.alone ==> var lines := SplitLines(old(db.Contents()), quoted);
                && failed == lines.Err?
                && (failed ==> db.Contents() == old(db.Contents()))
                && (!failed ==>
                      && t < |old(db.payments)|
                      && db.Contents() == Tables.SettlePayment(old(db.Contents()), t, lines.value))
                && Rest(old(db.charges), old(db.transfers), old(db.queue), |old(db.payouts)|, |old(db.refused)|)
    {
      db.Elsewhere(w);
      var entries := Divide(w, t, quoted);
      if entries.None? {
        return true;
      }
      Post(w, t, entries.value);
      return false;
    }

    method Post(ghost w: nat, t: nat, entries: seq<EntrySpec>)
      requires db.Valid() && db.At(w, SettleCommit(t, entries)) && w !in db.brokenOff
      modifies db
      ensures db.Valid() && w !in db.workers && w !in db.brokenOff && old(db.actions) <= db.actions
      ensures db.alone ==>
                && t < |old(db.payments)| && db.Contents() == Tables.SettlePayment(old(db.Contents()), t, entries)
                && Rest(old(db.charges), old(db.transfers), old(db.queue), |old(db.payouts)|, |old(db.refused)|)
    {
      ghost var before;
      var payoutIds;
      payoutIds, before := Commit(w, t, entries);
      if payoutIds.Some? {
        Announce(payoutIds.value, before);
      }
    }

    method Commit(ghost w: nat, t: nat, entries: seq<EntrySpec>)
      returns (payoutIds: Option<seq<nat>>, ghost before: nat)
      requires db.Valid() && db.At(w, SettleCommit(t, entries)) && w !in db.brokenOff
      modifies db
      ensures db.Valid() && w !in db.workers && w !in db.brokenOff && old(db.actions) <= db.actions
      ensures payoutIds.Some? ==>
                var ids := payoutIds.value; before + |ids| == |db.payouts| && ids == seq(|ids|, i => before + i)
      ensures db.alone ==>
                && t < |old(db.payments)| && db.Contents() == Tables.SettlePayment(old(db.Contents()), t, entries)
                && before == |old(db.payouts)| && (payoutIds.None? ==> |db.payouts| == before)
                && db.charges == old(db.charges) && db.transfers == old(db.transfers)
                && db.queue == old(db.queue) && db.refused == old(db.refused)
    {
      db.Elsewhere(w);
      before := |db.payouts|;
      payoutIds := db.SettlePayment(w, t, entries);
    }

    /** Every payout from there on is enqueued, or was tried. */
    method Announce(payoutIds: seq<nat>, ghost before: nat)
      requires before + |payoutIds| == |db.payouts| && payoutIds == seq(|payoutIds|, i => before + i)
      modifies db`queue, db`refused
      ensures old(db.queue) <= db.queue && forall p <- db.queue :: p in old(db.queue) || before <= p < |db.payouts|
      ensures forall p | before <= p < |db.payouts| :: db.IsAnnounced(p, |old(db.refused)|)
    {
      EnqueuePayouts(payoutIds);
      forall p | before <= p < |db.payouts| ensures db.IsAnnounced(p, |old(db.refused)|) {
        assert payoutIds[p - before] == p;
      }
    }

    method Divide(ghost w: nat, ghost t: nat, quoted: Payment) returns (entries: Option<seq<EntrySpec>>)
      requires db.Valid() && db.At(w, SettleRule(t, quoted)) && quoted.splitRuleId.Some?
      modifies db`everDelivered, db`claims, db`workers, db`actions
      ensures db.Valid() && old(db.actions) <= db.actions
      ensures entries.None? <==> SplitLines(db.Contents(), quoted).Err?
      ensures entries.Some? ==> SplitLines(db.Contents(), quoted) == Ok(entries.value)
      ensures if entries.Some? then db.At(w, SettleCommit(t, entries.value)) else w !in db.workers
      ensures entries.None? ==> Because(NoDivision, t)
    {
      var rule := db.FindRule(w, t, quoted);
      if rule.None? {
        return None;
      }
      var computed := ComputePaymentEntries(quoted.terms, rule.value);
      entries := if computed.Ok? then Some(computed.value) else None;
    }

    /** Best effort: what cannot be enqueued is left to the sweep, and does not keep the next from being tried. */
    method EnqueuePayouts(payoutIds: seq<nat>)
      modifies db`queue, db`refused
      ensures old(db.queue) <= db.queue <= old(db.queue) + (set p <- payoutIds) && old(db.refused) <= db.refused
      ensures forall p <- payoutIds :: db.IsAnnounced(p, |old(db.refused)|)
    {
      for i := 0 to |payoutIds|
        invariant old(db.queue) <= db.queue <= old(db.queue) + (set p <- payoutIds) && old(db.refused) <= db.refused
        invariant forall j | 0 <= j < i :: db.IsAnnounced(payoutIds[j], |old(db.refused)|)
      {
        var missed := db.Enqueue(payoutIds[i]);
      }
    }

    method Reload(ghost w: nat, t: nat) returns (r: Result<Option<Payment>, SettleError>)
      requires db.Valid() && w !in db.workers && w !in db.brokenOff
      modifies db
      ensures db.Valid() && w !in db.workers && w !in db.brokenOff && old(db.actions) <= db.actions
      ensures r == Ok(if t < |db.payments| then Some(db.payments[t]) else None)
      ensures db.alone ==> unchanged(db)
    {
      db.Elsewhere(w);
      r := Ok(if t < |db.payments| then Some(db.payments[t]) else None);
    }
  }

  /** The first check that refuses, in the order they are made. */
  function InitializeRefusal(session: Option<GuestSession>, activeRule: Option<nat>): Option<InitializeError> {
    if session.None? then Some(SessionNotFound)
    else if session.value.expired then Some(SessionExpired)
    else if !session.value.qrActive then Some(QrCodeInactive)
    else if !session.value.venueActive then Some(VenueInactive)
    else if session.value.entertainerId.Some? && !session.value.entertainerActive then Some(EntertainerInactive)
    else if activeRule.None? then Some(NoActiveRule)
    else None
  }

  /** A payment is stored exactly for a live session of an active code, venue and entertainer under an active rule; a
      refusal names the first thing amiss. */
  lemma InitializeChecks(session: Option<GuestSession>, activeRule: Option<nat>)
    ensures match InitializeRefusal(session, activeRule)
            case None =>
              && session.Some? && !session.value.expired && session.value.qrActive && session.value.venueActive
              && (session.value.entertainerId != None ==> session.value.entertainerActive) && activeRule != None
            case Some(SessionNotFound) => session == None
            case Some(SessionExpired) => session.Some? && session.value.expired
            case Some(QrCodeInactive) => session.Some? && !session.value.expired && !session.value.qrActive
            case Some(VenueInactive) =>
              session.Some? && !session.value.expired && session.value.qrActive && !session.value.venueActive
            case Some(EntertainerInactive) =>
              && session.Some? && !session.value.expired && session.value.qrActive && session.value.venueActive
              && session.value.entertainerId != None && !session.value.entertainerActive
            case Some(NoActiveRule) => session.Some? && activeRule == None
            case Some(CheckoutFailed) => false
  {
  }

  class PaymentsService {
    const db: Database
    const settlement: PaymentSettlementService

    constructor (settlement: PaymentSettlementService)
      ensures this.settlement == settlement && db == settlement.db
    {
      this.settlement, this.db := settlement, settlement.db;
    }

    /** activeRule is what looking up the venue's active rule answered; anything may happen before the payment is
        stored, which keeps that rule from then on. */
    method InitializePayment(session: Option<GuestSession>, amountKobo: int, activeRule: Option<nat>,
                             checkoutOpened: bool)
      returns (r: Result<nat, InitializeError>)
      requires db.Valid()
      modifies db
      ensures db.Valid() && old(db.actions) <= db.actions
      ensures var refusal := InitializeRefusal(session, activeRule);
              if refusal.Some? then r == Err(refusal.value) && unchanged(db)
              else
                var terms := PaymentForPosting(amountKobo, session.value.venueId, session.value.entertainerId);
                var stored := Payment(terms, activeRule, if checkoutOpened then CREATED else PaymentStatus.FAILED);
                && db.Stored(old(db.actions), NewPayment(terms, activeRule, checkoutOpened), stored)
                && (db.alone ==> && db.actions == old(db.actions) + [NewPayment(terms, activeRule, checkoutOpened)]
                                 && db.payments == old(db.payments) + [stored])
                && r == if checkoutOpened then Ok(|db.payments| - 1) else Err(CheckoutFailed)
    {
      if session.None? { return Err(SessionNotFound); }
      var guest := session.value;
      if guest.expired { return Err(SessionExpired); }
      if !guest.qrActive { return Err(QrCodeInactive); }
      if !guest.venueActive { return Err(VenueInactive); }
      if guest.entertainerId.Some? && !guest.entertainerActive { return Err(EntertainerInactive); }
      if activeRule.None? { return Err(NoActiveRule); }
      db.Meanwhile();
      var terms := PaymentForPosting(amountKobo, guest.venueId, guest.entertainerId);
      var t := db.CreatePayment(terms, activeRule.value, checkoutOpened);
      return if checkoutOpened then Ok(t) else Err(CheckoutFailed);
    }

    /** While the payment is unconfirmed this settles it; every error is swallowed. None is "not found". */
    method GetPaymentStatus(ghost w: nat, t: nat) returns (status: Option<PaymentStatus>, ghost providerDown: bool)
      requires db == settlement.db && db.Valid() && db.Free(w)
      modifies db
      ensures db.Valid() && w !in db.workers && old(db.actions) <= db.actions
      ensures status == if t < |db.payments| then Some(db.payments[t].status) else None
      ensures if t < |old(db.payments)| && old(db.payments)[t].status in {CREATED, PENDING}
              then old(db.actions) + [StartSettle(w, t)] <= db.actions else unchanged(db)
      ensures providerDown ==> exists seen :: db.BrokeOff(|old(db.actions)|, w, SettleVerify(t, seen))
      ensures db.alone ==>
                db.Contents() == PollNow(Desk(old(db.Contents()), [], {}, {}), old(settlement.ChargeOf(t)), t,
                                         providerDown).books
    {
      providerDown := false;
      if t >= |db.payments| {
        return None, false;
      }
      if db.payments[t].status == CREATED || db.payments[t].status == PENDING {
        var r := settlement.Settle(w, t);
        providerDown := r == Err(ProviderDown);
      }
      status := if t < |db.payments| then Some(db.payments[t].status) else None;
    }
  }
}
