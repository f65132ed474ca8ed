/** PayoutsService: one call is exactly one complete run of the protocol's worker, whatever happens in between. */
module Payouts {
  import opened Wrappers
  import opened Ledger
  import opened Tables
  import opened Protocol
  import opened Store
  import opened Destinations
  import opened PayoutOutcomes
  import Onboarding
  import Guarantees
  import PayoutLife

  const SWEEP_BATCH := 500
  const ALL_WELL := Outside(false, false, "", false, InFlight, None, false, Queueing(false, false))

  datatype RetryError = PayoutNotFound | OnlyFailedCanBeRetried(status: PayoutStatus) | QueueDown

  // ---------------------------------------------------------------- what the sweep fetches

  /** stale are the payouts untouched for a quarter of an hour. */
  predicate IsCandidate(row: Payout, p: nat, stale: set<nat>) {
    IsPayable(row.account.kind) && (row.status == QUEUED || row.status == RETRYING
                                    || (row.status == PROCESSING && p in stale))
  }

  function Candidates(payouts: seq<Payout>, stale: set<nat>): seq<Candidate> {
    if |payouts| == 0 then []
    else
      var p := |payouts| - 1;
      Candidates(payouts[..p], stale) + if IsCandidate(payouts[p], p, stale)
          then [Candidate(p, payouts[p].account)] else []
  }

  /** The sweep fetches what waits or is to be retried, and what has been PROCESSING for too long. */
  lemma {:induction false} CandidatesAre(payouts: seq<Payout>, stale: set<nat>, c: Candidate)
    ensures c in Candidates(payouts, stale)
            <==> && c.payoutId < |payouts| && c.account == payouts[c.payoutId].account
                 && c.account.kind in {EntertainerPayable, VenuePayable}
                 && (payouts[c.payoutId].status in {QUEUED, RETRYING}
                     || (payouts[c.payoutId].status == PROCESSING && c.payoutId in stale))
  {
    if |payouts| > 0 {
      CandidatesAre(payouts[..|payouts| - 1], stale, c);
    }
  }

  /** At most 500 candidates, in any order; all of them if there are no more. */
  predicate IsBatch(batch: seq<Candidate>, payouts: seq<Payout>, stale: set<nat>) {
    && |batch| <= SWEEP_BATCH
    && (forall c <- batch :: c in Candidates(payouts, stale))
    && (|Candidates(payouts, stale)| <= SWEEP_BATCH ==> forall c <- Candidates(payouts, stale) :: c in batch)
  }

  /** No payout is ever stranded: in every run each one has been paid, waits for a person, or is fetched by the sweep
      once it has not been touched for a quarter of an hour. */
  lemma NoPayoutIsStranded(serial: bool, actions: seq<Action>, p: nat, stale: set<nat>)
    requires p < |Run(serial, INITIAL, actions).books.payouts| && p in stale
    ensures var payouts := Run(serial, INITIAL, actions).books.payouts;
            || payouts[p].status in {PayoutStatus.SUCCESS, PayoutStatus.FAILED}
            || Candidate(p, payouts[p].account) in Candidates(payouts, stale)
  {
    var b := Run(serial, INITIAL, actions).books;
    Guarantees.AlwaysInv(serial, actions);
    PayoutLife.NeverCancelled(serial, actions, p);
    assert PayoutOk(b, p);
    CandidatesAre(b.payouts, stale, Candidate(p, b.payouts[p].account));
  }

  lemma {:induction false} DueAre(batch: seq<Candidate>, payable: set<string>, p: nat)
    ensures p in Due(batch, payable) <==> exists c <- batch :: c.payoutId == p && IsDue(c, payable)
  {
    if |batch| > 0 {
      var shorter, last := batch[..|batch| - 1], batch[|batch| - 1];
      DueAre(shorter, payable, p);
      assert batch == shorter + [last];
    }
  }

  /** What the sweep enqueues of a fetched batch agrees with what processPayout would then decide. */
  lemma SweepMatchesGate(batch: seq<Candidate>, payouts: seq<Payout>, stale: set<nat>, c: Candidate,
                         entertainers: map<string, Onboarding.Entertainer>,
                         venues: map<string, Onboarding.Venue>)
    requires IsBatch(batch, payouts, stale) && c in batch
    ensures var d := Destinations.ResolveDestination(c.account, entertainers, venues);
            var due := Due(batch, PayableOwners(batch, entertainers, venues));
            && (d.SendTo? ==> c.payoutId in due)
            && (d.HoldBack? && entertainers.Keys !! venues.Keys ==> c.payoutId !in due)
  {
    var payable := PayableOwners(batch, entertainers, venues);
    DueAre(batch, payable, c.payoutId);
    forall other <- batch ensures IsPayable(other.account.kind) && (other.payoutId == c.payoutId ==> other == c) {
      CandidatesAre(payouts, stale, other);
      CandidatesAre(payouts, stale, c);
    }
    if Destinations.ResolveDestination(c.account, entertainers, venues).SendTo? {
      SweepReleasesEverySend(batch, c, entertainers, venues);
    } else if entertainers.Keys !! venues.Keys {
      SweepAgreesWithGate(batch, c, entertainers, venues);
    }
  }

  /** Some row's owner or amount no posting can be made for. */
  ghost predicate Unpayable(payouts: seq<Payout>) {
    exists row <- payouts :: !CanPayOut(row.account, row.amountKobo)
  }

  class PayoutsService {
    const db: Database

    constructor (db: Database)
      ensures this.db == db
    {
      this.db := db;
    }

    /** The effect of an undisturbed call. */
    ghost predicate Made(effect: Effect, queue: set<nat>, threw: bool)
      reads db
    {
      && db.Contents() == effect.books && db.transfers == effect.transfers
      && db.queue == queue + effect.enqueued && threw == effect.threw
    }

    /** What the call found down, its run shows: it crashed at the question it got no answer to, or had taken the step
        whose answer was lost; only a job that could not be queued leaves a run that had come to its end. */
    ghost predicate Explained(since: nat, refused: nat, w: nat, p: nat, outside: Outside)
      reads db
    {
      && (outside.verifyDown ==> exists seen :: db.BrokeOff(since, w, PayoutVerify(p, seen)))
      && (outside.recipientDown ==> exists attempt, payee :: db.BrokeOff(since, w, PayoutRecipient(p, attempt, payee)))
      && (outside.transferLost ==> exists attempt, code :: db.BrokeOff(since, w, PayoutInitiate(p, attempt, code)))
      && (outside.answerLost ==> exists attempt, code :: db.Stepped(since, w, PayoutInitiate(p, attempt, code)))
      && (outside.queueing.threw ==> w !in db.brokenOff && refused < |db.refused|)
    }

    /** Worker entry point. */
    method ProcessPayout(ghost w: nat, p: nat) returns (threw: bool, ghost outside: Outside)
      requires db.Valid() && db.Free(w) && (db.serial ==> !Serves(db.Snapshot(), p))
      modifies db
      ensures db.Valid() && w !in db.workers && (!threw ==> w !in db.brokenOff)
      ensures old(db.actions) + [StartPayout(w, p)] <= db.actions
      ensures Explained(|old(db.actions)|, |old(db.refused)|, w, p, outside)
              && (threw ==> IsDown(outside) || Unpayable(db.payouts))
      ensures db.alone ==> Made(ProcessNow(old(db.Contents()), old(db.transfers), p, old(VerdictFor(p)), outside),
                                old(db.queue), threw)
    {
      outside := ALL_WELL;
      var row := Begin(w, p);
      if row.None? || !IsOpen(row.value.status) {
        return false, outside;
      }
      threw, outside := ProcessOpen(w, p, row.value, db.actions);
    }

    method Begin(ghost w: nat, p: nat) returns (row: Option<Payout>)
      requires db.Valid() && db.Free(w) && (db.serial ==> !Serves(db.Snapshot(), p))
      modifies db
      ensures db.Valid() && w !in db.brokenOff && old(db.refused) <= db.refused
              && old(db.actions) + [StartPayout(w, p)] <= db.actions
      ensures row == if p < |db.payouts| then Some(db.payouts[p]) else None
      ensures if row.Some? && IsOpen(row.value.status)
              then && db.At(w, if row.value.transferReference.Some? then PayoutVerify(p, row.value)
                               else PayoutResolve(p, row.value))
                   && WasRead(db.actions, p, row.value)
              else w !in db.workers
      ensures db.alone ==> Unchanged(old(db.Contents()), old(db.transfers), old(db.queue), old(db.entertainers),
                                     old(db.venues))
    {
      db.BeginPayout(w, p);
      db.Elsewhere(w);
      row := db.FindPayout(w, p);
    }

    method ProcessOpen(ghost w: nat, p: nat, payout: Payout, ghost history: seq<Action>)
      returns (threw: bool, ghost outside: Outside)
      requires db.Valid() && w !in db.brokenOff && history <= db.actions && WasRead(history, p, payout)
      requires db.At(w, if payout.transferReference.Some? then PayoutVerify(p, payout) else PayoutResolve(p, payout))
      requires p < |db.payouts| && db.payouts[p] == payout && IsOpen(payout.status)
      modifies db
      ensures db.Valid() && w !in db.workers && (!threw ==> w !in db.brokenOff)
      ensures old(db.actions) <= db.actions
      ensures Explained(|history|, |old(db.refused)|, w, p, outside)
              && (threw ==> IsDown(outside) || Unpayable(db.payouts))
      ensures db.alone ==> Made(ProcessNow(old(db.Contents()), old(db.transfers), p, old(VerdictFor(p)), outside),
                                old(db.queue), threw)
    {
      outside := ALL_WELL;
      if payout.transferReference.Some? {
        var status;
        threw, status := VerifyPrevious(w, p, payout);
        outside := outside.(verifyDown := threw);
        if threw {
          return;
        }
        if status.Some? && IsLive(status.value) {
          ghost var queueing;
          threw, queueing := AfterTransfer(w, p, payout.transferReference.value, status.value, None);
          return;
        }
      }
      threw, outside := SendIfReady(w, p, payout, history);
    }

    /** Where payout p would go, by the tables as they are. */
    ghost function VerdictFor(p: nat): Verdict
      reads db
    {
      if p < |db.payouts|
      then VerdictOf(Destinations.ResolveDestination(db.payouts[p].account, db.entertainers, db.venues))
      else Hold
    }

    /** An earlier attempt may have reached the provider: ask about it. */
    method VerifyPrevious(ghost w: nat, p: nat, payout: Payout) returns (threw: bool, status: Option<TransferStatus>)
      requires db.Valid() && db.At(w, PayoutVerify(p, payout)) && w !in db.brokenOff && payout.transferReference.Some?
      modifies db
      ensures db.Valid() && old(db.actions) <= db.actions && old(db.refused) <= db.refused
              && (!threw ==> w !in db.brokenOff)
      ensures if threw then w !in db.workers && db.BrokeOff(|old(db.actions)|, w, PayoutVerify(p, payout))
              else db.Verified(w, p, payout.transferReference.value, payout, status)
      ensures db.alone ==>
                && Unchanged(old(db.Contents()), old(db.transfers), old(db.queue), old(db.entertainers), old(db.venues))
                && status == db.TransferStatusOf(payout.transferReference.value)
    {
      db.Elsewhere(w);
      threw, status := db.VerifyTransfer(w, p, payout);
    }

    ghost predicate Unchanged(books: Books, transfers: map<Reference, Transfer>, queue: set<nat>,
                              entertainers: map<string, Onboarding.Entertainer>, venues: map<string, Onboarding.Venue>)
      reads db
    {
      && db.Contents() == books && db.transfers == transfers && db.queue == queue
      && db.entertainers == entertainers && db.venues == venues
    }

    method SendIfReady(ghost w: nat, p: nat, payout: Payout, ghost history: seq<Action>)
      returns (threw: bool, ghost outside: Outside)
      requires db.Valid() && db.At(w, PayoutResolve(p, payout)) && w !in db.brokenOff && history <= db.actions
      requires WasRead(history, p, payout) && (db.alone ==> p < |db.payouts| && db.payouts[p] == payout)
      modifies db
      ensures db.Valid() && w !in db.workers && (!threw ==> w !in db.brokenOff)
      ensures old(db.actions) <= db.actions
      ensures !outside.verifyDown && (threw ==> IsDown(outside) || Unpayable(db.payouts))
      ensures Explained(|history|, |old(db.refused)|, w, p, outside)
      ensures db.alone ==> Made(SendNow(old(db.Contents()), old(db.transfers), p, old(VerdictFor(p)), outside),
                                old(db.queue), threw)
    {
      db.Elsewhere(w);
      var destination := db.ResolveDestination(w, p, payout);
      threw, outside := Route(w, p, payout, destination, history);
    }

    method Route(ghost w: nat, p: nat, payout: Payout, destination: Destination, ghost history: seq<Action>)
      returns (threw: bool, ghost outside: Outside)
      requires db.Valid() && w !in db.brokenOff && history <= db.actions
      requires destination.SendTo? ==> db.At(w, PayoutClaim(p, payout, VerdictOf(destination).payee))
      requires destination.NeedsReview? ==> db.At(w, ReviewWrite(p, BadDestination(destination.reason)))
      requires destination.HoldBack? ==>
                 if payout.status == QUEUED then w !in db.workers else db.At(w, PayoutHold(p, payout.status))
      requires WasRead(history, p, payout) && (db.alone ==> p < |db.payouts| && db.payouts[p] == payout)
      modifies db
      ensures db.Valid() && w !in db.workers && (!threw ==> w !in db.brokenOff)
      ensures old(db.actions) <= db.actions
      ensures !outside.verifyDown && (threw ==> IsDown(outside) || Unpayable(db.payouts))
      ensures Explained(|history|, |old(db.refused)|, w, p, outside)
      ensures db.alone ==> Made(SendNow(old(db.Contents()), old(db.transfers), p, VerdictOf(destination), outside),
                                old(db.queue), threw)
    {
      outside := ALL_WELL;
      match destination {
        case NeedsReview(reason) =>
          MarkForReview(w, p, BadDestination(reason));
          threw := false;
        case HoldBack =>
          HoldForNow(w, p, payout);
          threw := false;
        case SendTo(recipientName, bankCode, accountNumber, transferReason) =>
          threw, outside := Transfer(w, p, payout, Payee(recipientName, BankAccount(accountNumber, bankCode)), history);
      }
    }

    /** Not a failure: back to QUEUED, so that the sweep looks at it again. */
    method HoldForNow(ghost w: nat, p: nat, payout: Payout)
      requires db.Valid() && w !in db.brokenOff
      requires if payout.status == QUEUED then w !in db.workers else db.At(w, PayoutHold(p, payout.status))
      modifies db
      ensures db.Valid() && w !in db.workers && w !in db.brokenOff
      ensures old(db.actions) <= db.actions
      ensures db.alone ==> db.transfers == old(db.transfers) && db.queue == old(db.queue)
      ensures db.alone && payout.status == QUEUED ==> db.Contents() == old(db.Contents())
      ensures db.alone && payout.status != QUEUED ==>
                p < |old(db.payouts)| && db.Contents() == Tables.HoldPayout(old(db.Contents()), p, payout.status)
    {
      if payout.status != QUEUED {
        db.Elsewhere(w);
        db.HoldPayout(w, p, payout.status);
      }
    }

    /** The payout row as it stood after these actions. (The quantifier keeps the run folded.) */
    ghost predicate WasRead(history: seq<Action>, p: nat, payout: Payout) {
      forall start: State | start == INITIAL ::
        var rows := Run(db.serial, start, history).books.payouts; p < |rows| && rows[p] == payout
    }

    /** Claim the attempt, persist its reference, and only then talk to the provider. */
    method Transfer(ghost w: nat, p: nat, payout: Payout, payee: Payee, ghost history: seq<Action>)
      returns (threw: bool, ghost outside: Outside)
      requires db.Valid() && db.At(w, PayoutClaim(p, payout, payee)) && w !in db.brokenOff && history <= db.actions
      requires WasRead(history, p, payout) && (db.alone ==> p < |db.payouts| && db.payouts[p] == payout)
      modifies db
      ensures db.Valid() && w !in db.workers && (!threw ==> w !in db.brokenOff)
      ensures old(db.actions) <= db.actions
      ensures !outside.verifyDown && (threw ==> IsDown(outside) || Unpayable(db.payouts))
      ensures Explained(|history|, |old(db.refused)|, w, p, outside)
      ensures db.alone ==>
                Made(AttemptNow(old(db.Contents()), old(db.transfers), p, payee.account, outside), old(db.queue), threw)
    {
      ghost var books := db.Contents();
      var claimed, recipient := ClaimAndPrepare(w, p, payout, payee);
      if recipient.None? {
        return claimed, NotPrepared(claimed);
      }
      threw, outside := Initiate(w, p, payout, history, recipient.value, payee.account, books);
    }

    /** The attempt is claimed and its recipient stored, which stands for the account the gate answered. */
    ghost predicate Prepared(books: Books, p: nat, payout: Payout, recipient: string, to: BankAccount)
      reads db
    {
      && recipient in db.recipients && db.recipients[recipient] == to
      && p < |books.payouts| && books.payouts[p] == payout && CanClaim(books, p, payout.attempts)
      && db.Contents() == Tables.SaveRecipient(Tables.ClaimPayout(books, p, payout.attempts), p, recipient)
    }

    /** The attempt was lost, or its recipient could not be created. */
    ghost function NotPrepared(claimed: bool): (outside: Outside)
      ensures !outside.verifyDown && !outside.transferLost && !outside.answerLost && !outside.queueing.threw
      ensures outside.recipientDown == claimed && (claimed ==> IsDown(outside))
    {
      ALL_WELL.(recipientDown := claimed)
    }

    method Initiate(ghost w: nat, p: nat, payout: Payout, ghost history: seq<Action>, recipient: string,
                    ghost to: BankAccount, ghost books: Books)
      returns (threw: bool, ghost outside: Outside)
      requires db.Valid() && db.At(w, PayoutInitiate(p, payout.attempts + 1, recipient)) && w !in db.brokenOff
      requires history <= db.actions && WasRead(history, p, payout)
      requires db.alone ==> Prepared(books, p, payout, recipient, to)
      modifies db
      ensures db.Valid() && w !in db.workers && (!threw ==> w !in db.brokenOff)
      ensures old(db.actions) <= db.actions
      ensures !outside.verifyDown && !outside.recipientDown && outside.recipient == recipient
      ensures Explained(|history|, |old(db.refused)|, w, p, outside)
              && (threw ==> IsDown(outside) || Unpayable(db.payouts))
      ensures db.alone ==> Made(AttemptNow(books, old(db.transfers), p, to, outside), old(db.queue), threw)
    {
      var attempt := payout.attempts + 1;
      ghost var ready, transfers := db.Contents(), db.transfers;
      var landed, given;
      threw, landed, given, outside := AskForTransfer(w, p, payout, history, recipient);
      if !threw {
        ghost var queueing;
        threw, queueing := AfterTransfer(w, p, Reference(p, attempt), landed.status, given);
        outside := outside.(queueing := queueing);
      }
      if db.alone {
        ReadyToInitiate(books, ready, transfers, p, to, outside);
      }
    }

    /** Initiate the transfer of the payout's amount under this attempt's reference. */
    method AskForTransfer(ghost w: nat, p: nat, payout: Payout, ghost history: seq<Action>, recipient: string)
      returns (threw: bool, landed: Protocol.Transfer, given: Option<string>, ghost outside: Outside)
      requires db.Valid() && db.At(w, PayoutInitiate(p, payout.attempts + 1, recipient)) && w !in db.brokenOff
      requires history <= db.actions && WasRead(history, p, payout)
      modifies db
      ensures db.Valid() && old(db.actions) <= db.actions && old(db.refused) <= db.refused
              && Explained(|history|, |old(db.refused)|, w, p, outside)
      ensures outside == ALL_WELL.(recipient := recipient, transferLost := outside.transferLost, given := given,
                                   lands := landed.status, answerLost := threw && !outside.transferLost)
      ensures if threw then w !in db.workers else w !in db.brokenOff && !outside.transferLost
      ensures var ref := Reference(p, payout.attempts + 1);
              !threw ==> && (landed.status == InFlight ==> w !in db.workers)
                         && (landed.status == Delivered ==> db.At(w, MarkRead(p, ref)))
                         && (landed.status == AwaitingAction ==> db.At(w, FlagWrite(p)))
                         && (landed.status in {Bounced, Returned} ==> db.At(w, EventRead(ref, TransferFailed, given)))
      ensures var ref := Reference(p, payout.attempts + 1);
              db.alone ==>
                && p < |db.payouts| && db.Contents() == old(db.Contents()) && db.queue == old(db.queue)
                && db.transfers == (if outside.transferLost then old(db.transfers)
                                    else old(db.transfers)[ref := landed])
                && (!outside.transferLost ==>
                      if ref in old(db.transfers) then landed == old(db.transfers)[ref]
                      else landed.amountKobo == db.payouts[p].amountKobo && recipient in old(db.recipients)
                           && landed.to == old(db.recipients)[recipient])
    {
      db.Elsewhere(w);
      AmountStays(history, p, payout);
      ghost var reached;
      threw, landed, given, reached := db.InitiateTransfer(w, p, payout.attempts + 1, payout.amountKobo, recipient);
      outside := ALL_WELL.(recipient := recipient, transferLost := !reached, lands := landed.status, given := given,
                           answerLost := threw && reached);
    }

    /** The attempt is lost to another worker, or claimed; then the recipient is created and stored, or the provider is
        down. */
    method ClaimAndPrepare(ghost w: nat, p: nat, payout: Payout, payee: Payee)
      returns (claimed: bool, recipient: Option<string>)
      requires db.Valid() && db.At(w, PayoutClaim(p, payout, payee)) && w !in db.brokenOff
      requires db.alone ==> p < |db.payouts| && db.payouts[p] == payout
      modifies db
      ensures db.Valid() && old(db.actions) <= db.actions && old(db.refused) <= db.refused
              && (recipient.Some? ==> claimed)
      ensures if recipient.Some? then db.At(w, PayoutInitiate(p, payout.attempts + 1, recipient.value))
              else w !in db.workers
      ensures if recipient.Some? || !claimed then w !in db.brokenOff
              else db.BrokeOff(|old(db.actions)|, w, PayoutRecipient(p, payout.attempts + 1, payee))
      ensures db.alone && recipient.None? ==>
                Made(AttemptNow(old(db.Contents()), old(db.transfers), p, payee.account, NotPrepared(claimed)),
                     old(db.queue), claimed)
      ensures db.alone && recipient.Some? ==>
                && Prepared(old(db.Contents()), p, payout, recipient.value, payee.account)
                && db.transfers == old(db.transfers) && db.queue == old(db.queue)
    {
      db.Elsewhere(w);
      claimed := db.ClaimPayout(w, p, payout, payee);
      if !claimed {
        return false, None;
      }
      recipient := PrepareRecipient(w, p, payout.attempts + 1, payee);
    }

    method PrepareRecipient(ghost w: nat, p: nat, ghost attempt: nat, payee: Payee) returns (recipient: Option<string>)
      requires db.Valid() && db.At(w, PayoutRecipient(p, attempt, payee)) && w !in db.brokenOff
      modifies db
      ensures db.Valid() && old(db.actions) <= db.actions && old(db.refused) <= db.refused
              && (recipient.Some? ==> w !in db.brokenOff)
      ensures if recipient.Some? then db.At(w, PayoutInitiate(p, attempt, recipient.value))
              else w !in db.workers && db.BrokeOff(|old(db.actions)|, w, PayoutRecipient(p, attempt, payee))
      ensures db.alone && recipient.None? ==> db.Contents() == old(db.Contents())
      ensures db.alone && recipient.Some? ==>
                && p < |old(db.payouts)|
                && db.Contents() == Tables.SaveRecipient(old(db.Contents()), p, recipient.value)
                && recipient.value in db.recipients && db.recipients[recipient.value] == payee.account
      ensures db.alone ==> db.transfers == old(db.transfers) && db.queue == old(db.queue)
    {
      var threw, recipientCode := AskForRecipient(w, p, attempt, payee);
      if threw {
        return None;
      }
      StoreRecipient(w, p, attempt, recipientCode);
      return Some(recipientCode);
    }

    method AskForRecipient(ghost w: nat, ghost p: nat, ghost attempt: nat, payee: Payee)
      returns (threw: bool, code: string)
      requires db.Valid() && db.At(w, PayoutRecipient(p, attempt, payee)) && w !in db.brokenOff
      modifies db
      ensures db.Valid() && old(db.actions) <= db.actions && old(db.refused) <= db.refused
      ensures if threw then w !in db.workers && db.BrokeOff(|old(db.actions)|, w, PayoutRecipient(p, attempt, payee))
              else db.At(w, PayoutRecipientSave(p, attempt, code)) && w !in db.brokenOff
      ensures db.alone ==>
                && db.Contents() == old(db.Contents()) && db.transfers == old(db.transfers) && db.queue == old(db.queue)
                && (!threw ==> code in db.recipients && db.recipients[code] == payee.account)
    {
      db.Elsewhere(w);
      threw, code := db.CreateRecipient(w, p, attempt, payee);
    }

    method StoreRecipient(ghost w: nat, p: nat, ghost attempt: nat, code: string)
      requires db.Valid() && db.At(w, PayoutRecipientSave(p, attempt, code)) && w !in db.brokenOff
      modifies db
      ensures db.Valid() && old(db.actions) <= db.actions && old(db.refused) <= db.refused && w !in db.brokenOff
      ensures db.At(w, PayoutInitiate(p, attempt, code)) && (db.alone ==> db.recipients == old(db.recipients))
      ensures db.alone ==> p < |old(db.payouts)| && db.Contents() == Tables.SaveRecipient(old(db.Contents()), p, code)
      ensures db.alone ==> db.transfers == old(db.transfers) && db.queue == old(db.queue)
    {
      db.Elsewhere(w);
      db.SaveRecipient(w, p, attempt, code);
    }

    lemma AmountStays(history: seq<Action>, p: nat, payout: Payout)
      requires db.Valid() && history <= db.actions && WasRead(history, p, payout)
      ensures p < |db.payouts| && db.payouts[p].amountKobo == payout.amountKobo
    {
      assert Run(db.serial, INITIAL, history).books.payouts[p] == payout;
      ObligationStays(db.serial, history, db.actions, p);
    }

    /** What the transfer's status leads to. A live one never involves the queue. */
    method AfterTransfer(ghost w: nat, p: nat, reference: Reference, status: TransferStatus, given: Option<string>)
      returns (threw: bool, ghost queueing: Queueing)
      requires db.Valid() && w !in db.brokenOff && (db.alone ==> p < |db.payouts|)
      requires status == InFlight ==> w !in db.workers
      requires status == Delivered ==> db.At(w, MarkRead(p, reference))
      requires status == AwaitingAction ==> db.At(w, FlagWrite(p))
      requires status in {Bounced, Returned} ==> db.At(w, EventRead(reference, TransferFailed, given))
      modifies db
      ensures db.Valid() && w !in db.workers && w !in db.brokenOff
      ensures old(db.actions) <= db.actions
      ensures (threw ==> queueing.threw || Unpayable(db.payouts)) && (IsLive(status) ==> queueing == ALL_WELL.queueing)
      ensures queueing.threw ==> |old(db.refused)| < |db.refused|
      ensures db.alone ==> Made(LandedNow(old(db.Contents()), old(db.transfers), p, reference, status, given, queueing),
                                old(db.queue), threw)
    {
      threw, queueing := false, ALL_WELL.queueing;
      match status {
        case Delivered => threw := MarkSucceeded(w, p, reference);
        case InFlight =>
        case AwaitingAction => FlagForOperator(w, p);
        case _ =>
          db.Elsewhere(w);
          threw, queueing := HandleTransferEvent(w, reference, TransferFailed, given);
      }
    }

    /** transfer.success / transfer.failed / transfer.reversed, from a run that has just begun or just transferred. */
    method HandleTransferEvent(ghost w: nat, reference: Reference, event: TransferEvent, given: Option<string>)
      returns (threw: bool, ghost queueing: Queueing)
      requires db.Valid() && db.At(w, EventRead(reference, event, given)) && w !in db.brokenOff
      modifies db
      ensures db.Valid() && w !in db.workers && w !in db.brokenOff
      ensures old(db.actions) <= db.actions
      ensures threw ==> queueing.threw || Unpayable(db.payouts)
      ensures queueing.threw ==> |old(db.refused)| < |db.refused|
      ensures db.alone ==> Made(EventNow(old(db.Contents()), old(db.transfers), reference, event, given, queueing),
                                old(db.queue), threw)
    {
      threw, queueing := false, ALL_WELL.queueing;
      var found := db.FindByReference(w, reference, event, given);
      if found.None? {
        return;
      }
      var p, payout := found.value, db.payouts[found.value];
      if event == TransferSucceeded {
        threw := MarkSucceeded(w, p, reference);
      } else if event == TransferReversed && payout.status == PayoutStatus.SUCCESS {
        threw, queueing := ReverseAttempt(w, p, payout, reference, given);
      } else if payout.status != PayoutStatus.SUCCESS {
        threw, queueing := FailedAttempt(w, p, payout, reference, event, given);
      }
    }

    /** Money came back after it was recorded as paid: the obligation goes back onto the payable account. */
    method ReverseAttempt(ghost w: nat, p: nat, payout: Payout, reference: Reference, given: Option<string>)
      returns (threw: bool, ghost queueing: Queueing)
      requires db.Valid() && w !in db.brokenOff && p < |db.payouts| && payout == db.payouts[p]
      requires var entries := PayoutReversalEntries(payout.account, payout.amountKobo);
               if entries.Ok? then db.At(w, EventReverse(p, reference, entries.value, given, payout.attempts))
               else w !in db.workers
      modifies db
      ensures db.Valid() && w !in db.workers && w !in db.brokenOff && old(db.actions) <= db.actions
      ensures threw ==> queueing.threw || Unpayable(db.payouts)
      ensures queueing.threw ==> |old(db.refused)| < |db.refused|
      ensures db.alone ==> Made(ReverseNow(old(db.Contents()), old(db.transfers), p, reference, given, queueing),
                                old(db.queue), threw)
    {
      queueing := ALL_WELL.queueing;
      var entries := PayoutReversalEntries(payout.account, payout.amountKobo);
      if entries.Err? {
        assert payout in db.payouts;
        return true, queueing;
      }
      db.Elsewhere(w);
      var reversed := db.ReversePayout(w, p, reference, entries.value, given, payout.attempts);
      if !reversed {
        return false, queueing;
      }
      threw, queueing := TryAgainOrReview(w, p, TransferReversed, given, payout.attempts);
    }

    /** Nothing was posted for this attempt: only the payout's state changes. */
    method FailedAttempt(ghost w: nat, p: nat, payout: Payout, reference: Reference, event: TransferEvent,
                         given: Option<string>)
      returns (threw: bool, ghost queueing: Queueing)
      requires db.Valid() && db.At(w, EventFail(p, reference, event, given, payout.attempts)) && w !in db.brokenOff
      requires p < |db.payouts| && payout == db.payouts[p]
      modifies db
      ensures db.Valid() && w !in db.workers && w !in db.brokenOff && old(db.actions) <= db.actions
      ensures threw ==> queueing.threw
      ensures queueing.threw ==> |old(db.refused)| < |db.refused|
      ensures db.alone ==>
                Made(FailedNow(Tables.FailAttempt(old(db.Contents()), p, reference, event, given), old(db.transfers),
                               p, event,
                               given, payout.attempts, queueing), old(db.queue), threw)
    {
      db.Elsewhere(w);
      db.FailAttempt(w, p, reference, event, given, payout.attempts);
      threw, queueing := TryAgainOrReview(w, p, event, given, payout.attempts);
    }

    method TryAgainOrReview(ghost w: nat, p: nat, event: TransferEvent, given: Option<string>, attempts: nat)
      returns (threw: bool, ghost queueing: Queueing)
      requires db.Valid() && w !in db.brokenOff && p < |db.payouts|
      requires if attempts >= MAX_AUTOMATIC_TRANSFER_ATTEMPTS
               then db.At(w, ReviewWrite(p, TooManyAttempts(event, attempts, given))) else w !in db.workers
      modifies db
      ensures db.Valid() && w !in db.workers && w !in db.brokenOff
      ensures old(db.actions) <= db.actions && (threw ==> queueing.threw)
      ensures queueing.threw ==> |old(db.refused)| < |db.refused|
      ensures db.alone ==> Made(FailedNow(old(db.Contents()), old(db.transfers), p, event, given, attempts, queueing),
                                old(db.queue), threw)
    {
      queueing := ALL_WELL.queueing;
      if attempts >= MAX_AUTOMATIC_TRANSFER_ATTEMPTS {
        MarkForReview(w, p, TooManyAttempts(event, attempts, given));
        return false, queueing;
      }
      ghost var before := db.queue;
      threw := db.Enqueue(p);
      queueing := Queueing(threw, db.queue == before + {p});
    }

    method MarkSucceeded(ghost w: nat, p: nat, reference: Reference) returns (threw: bool)
      requires db.Valid() && db.At(w, MarkRead(p, reference)) && w !in db.brokenOff
      modifies db
      ensures db.Valid() && w !in db.workers && w !in db.brokenOff
      ensures old(db.actions) <= db.actions && (threw ==> Unpayable(db.payouts))
      ensures db.alone ==> p < |old(db.payouts)|
                           && Made(MarkNow(old(db.Contents()), old(db.transfers), p, reference), old(db.queue), threw)
    {
      db.Elsewhere(w);
      var payout := db.FindPayoutToMark(w, p, reference);
      var entries := PayoutEntries(payout.account, payout.amountKobo);
      if entries.Err? {
        assert payout in db.payouts;
        return true;
      }
      CommitSuccess(w, p, reference, entries.value);
      return false;
    }

    /** Exactly once, even if an event and a verification race each other. */
    method CommitSuccess(ghost w: nat, p: nat, reference: Reference, entries: seq<EntrySpec>)
      requires db.Valid() && db.At(w, MarkCommit(p, reference, entries)) && w !in db.brokenOff
      modifies db
      ensures db.Valid() && w !in db.workers && w !in db.brokenOff && old(db.actions) <= db.actions
      ensures db.alone ==> p < |old(db.payouts)|
                           && db.Contents() == Tables.SucceedPayout(old(db.Contents()), p, reference, entries)
      ensures db.alone ==> db.transfers == old(db.transfers) && db.queue == old(db.queue)
    {
      db.Elsewhere(w);
      var posted := db.SucceedPayout(w, p, reference, entries);
    }

    method FlagForOperator(ghost w: nat, p: nat)
      requires db.Valid() && db.At(w, FlagWrite(p)) && w !in db.brokenOff
      modifies db
      ensures db.Valid() && w !in db.workers && w !in db.brokenOff
      ensures old(db.actions) <= db.actions
      ensures db.alone ==> p < |old(db.payouts)| && db.Contents() == Tables.FlagPayout(old(db.Contents()), p)
      ensures db.alone ==> db.transfers == old(db.transfers) && db.queue == old(db.queue)
    {
      db.Elsewhere(w);
      db.FlagPayout(w, p);
    }

    method MarkForReview(ghost w: nat, p: nat, cause: ReviewCause)
      requires db.Valid() && db.At(w, ReviewWrite(p, cause)) && w !in db.brokenOff
      modifies db
      ensures db.Valid() && w !in db.workers && w !in db.brokenOff
      ensures old(db.actions) <= db.actions
      ensures db.alone ==> p < |old(db.payouts)| && db.Contents() == Tables.ReviewPayout(old(db.Contents()), p, cause)
      ensures db.alone ==> db.transfers == old(db.transfers) && db.queue == old(db.queue)
    {
      db.Elsewhere(w);
      db.ReviewPayout(w, p, cause);
    }

    /** Manual-review exit. */
    method RetryPayout(p: nat) returns (r: Result<Payout, RetryError>)
      requires db.Valid()
      modifies db
      ensures db.Valid() && old(db.actions) + [Retry(p)] <= db.actions
      ensures (r.Ok? || r == Err(QueueDown))
              <==> (p < |old(db.payouts)| && old(db.payouts)[p].status == PayoutStatus.FAILED)
      ensures r == Err(PayoutNotFound) ==> p >= |old(db.payouts)|
      ensures r == Err(QueueDown) ==> |old(db.refused)| < |db.refused|
      ensures r.Ok? ==> p < |db.payouts| && r.value == db.payouts[p]
      ensures db.alone && (r.Ok? || r == Err(QueueDown)) ==>
                && db.Contents() == Tables.RetryPayout(old(db.Contents()), p)
                && (db.queue == old(db.queue) + {p} || (r.Err? && db.queue == old(db.queue)))
      ensures db.alone && (r.Err? && !r.error.QueueDown?) ==> db.Contents() == old(db.Contents())
    {
      ghost var before := db.actions;
      var reopened := db.ReopenPayout(p);
      ghost var reopenedAt := db.actions;
      if !reopened {
        db.Meanwhile();
        if p >= |db.payouts| {
          Guarantees.RunExtends(db.serial, reopenedAt, db.actions);
          return Err(PayoutNotFound);
        }
        return Err(OnlyFailedCanBeRetried(db.payouts[p].status));
      }
      var threw := db.Enqueue(p);
      if threw {
        return Err(QueueDown);
      }
      db.Meanwhile();
      Guarantees.RunExtends(db.serial, reopenedAt, db.actions);
      return Ok(db.payouts[p]);
    }

    method FindCandidates(stale: set<nat>) returns (batch: seq<Candidate>)
      ensures IsBatch(batch, db.payouts, stale)
      ensures |batch| <= 500
              && (|Candidates(db.payouts, stale)| <= 500 ==> forall c <- Candidates(db.payouts, stale) :: c in batch)
    {
      var all := Candidates(db.payouts, stale);
      batch := if |all| <= SWEEP_BATCH then all else all[..SWEEP_BATCH];
    }

    /** Periodic sweep: the fetched candidates whose owner is payable are enqueued, and nothing else. */
    method EnqueueDuePayouts(stale: set<nat>)
      returns (threw: bool, count: nat, ghost batch: seq<Candidate>, ghost queued: set<nat>)
      requires db.Valid()
      modifies db
      ensures db.Valid() && old(db.actions) <= db.actions
      ensures IsBatch(batch, old(db.payouts), stale) && (db.alone ==> queued == old(db.queue))
      ensures var due := Due(batch, PayableOwners(batch, db.entertainers, db.venues));
              && queued <= db.queue <= queued + (set p <- due)
              && (!threw ==> count == |due| && db.queue == queued + (set p <- due))
      ensures threw ==> |old(db.refused)| < |db.refused|
    {
      var candidates := FindCandidates(stale);
      batch := candidates;
      db.Meanwhile();
      queued := db.queue;
      var payable := PayableOwners(candidates, db.entertainers, db.venues);
      var due := Due(candidates, payable);
      threw := EnqueueAll(due);
      count := |due|;
    }

    method EnqueueAll(due: seq<nat>) returns (threw: bool)
      modifies db`queue, db`refused
      ensures old(db.queue) <= db.queue <= old(db.queue) + (set p <- due)
      ensures if threw then |db.refused| > |old(db.refused)| else db.queue == old(db.queue) + (set p <- due)
    {
      for i := 0 to |due|
        invariant db.queue == old(db.queue) + (set p <- due[..i]) && db.refused == old(db.refused)
      {
        threw := db.Enqueue(due[i]);
        if threw {
          return;
        }
        assert due[..i + 1] == due[..i] + [due[i]];
      }
      assert due[..|due|] == due;
      threw := false;
    }
  }
}
