/** resolveDestination: where a payout goes and whether it may go there yet; and the sweep that mirrors it. */
module Destinations {
  import opened Wrappers
  import opened Ledger
  import opened Names
  import opened Onboarding
  import opened OnboardingCalls

  datatype Destination =
    | SendTo(recipientName: string, bankCode: string, accountNumber: string, transferReason: string)
    | HoldBack
    | NeedsReview(reason: string)

  /** Names the platform stored before it captured the provider's own codes. */
  const BANK_CODES: map<string, string> := map[
    "GTBank" := "058", "Access Bank" := "044", "First Bank" := "011", "UBA" := "033", "Zenith Bank" := "057",
    "Stanbic IBTC" := "221", "Sterling Bank" := "232", "Polaris Bank" := "076", "Wema Bank" := "035",
    "Union Bank" := "032", "Ecobank" := "050", "Fidelity Bank" := "070", "FCMB" := "214", "Kuda Bank" := "090267",
    "Opay" := "999992"]

  /** The stored code, or the name lookup when none was ever stored. */
  function BankCodeOf(d: PayoutDetails): Option<string> {
    if d.bankCode.Some? then d.bankCode
    else if d.bankName.Some? && d.bankName.value in BANK_CODES then Some(BANK_CODES[d.bankName.value])
    else None
  }

  function DestinationOf(d: PayoutDetails, recipientName: string, transferReason: string,
                         missing: string): Destination {
    if !Present(d.bankName) || !Present(d.accountNumber) then NeedsReview(missing)
    else if !Present(BankCodeOf(d)) then NeedsReview("Unknown bank: " + d.bankName.value)
    else SendTo(recipientName, BankCodeOf(d).value, d.accountNumber.value, transferReason)
  }

  function ResolveDestination(account: Account, entertainers: map<string, Entertainer>,
                              venues: map<string, Venue>): Destination {
    if !Present(account.owner) then NeedsReview("Payable account has no owner")
    else if account.kind == EntertainerPayable then
      if account.owner.value !in entertainers then NeedsReview("Entertainer for payable account not found")
      else
        var e := entertainers[account.owner.value];
        if e.kycStatus != VERIFIED || e.details.accountConfirmedAt.None? then HoldBack
        else DestinationOf(e.details, e.legalName, "Splitcore tip payout - " + e.stageName,
                           "Missing bank account details")
    else if account.kind == VenuePayable then
      if account.owner.value !in venues then NeedsReview("Venue for payable account not found")
      else
        var v := venues[account.owner.value];
        if v.details.accountConfirmedAt.None? then HoldBack
        else DestinationOf(v.details,
                           if v.details.resolvedAccountName.Some? then v.details.resolvedAccountName.value else v.name,
                           "Splitcore venue payout - " + v.name, "Missing venue bank account details")
    else NeedsReview("Unsupported payable account type")
  }

  /** The stored code; without one, the code known for the bank's name; an empty one is none. */
  predicate IsCode(d: PayoutDetails, code: string) {
    code != "" && (d.bankCode == Some(code)
                   || (d.bankCode == None && d.bankName.Some? && d.bankName.value in BANK_CODES
                       && BANK_CODES[d.bankName.value] == code))
  }

  /** No two banks share a code, and none is empty. */
  lemma BankCodesAreDistinct(a: string, b: string)
    requires a in BANK_CODES && b in BANK_CODES && a != b
    ensures BANK_CODES[a] != BANK_CODES[b] && BANK_CODES[a] != ""
  {
  }

  /** Account number, bank and code are known. */
  ghost predicate IsAddressed(d: PayoutDetails) {
    && d.bankName != None && d.bankName != Some("") && d.accountNumber != None && d.accountNumber != Some("")
    && exists code :: IsCode(d, code)
  }

  predicate Addresses(destination: Destination, d: PayoutDetails, recipientName: string) {
    && destination.SendTo? && destination.recipientName == recipientName
    && d.accountNumber == Some(destination.accountNumber) && IsCode(d, destination.bankCode)
  }

  lemma AddressedIsSent(d: PayoutDetails, recipientName: string, transferReason: string, missing: string)
    ensures var destination := DestinationOf(d, recipientName, transferReason, missing);
            if IsAddressed(d) then Addresses(destination, d, recipientName) else destination.NeedsReview?
  {
    if BankCodeOf(d).Some? && BankCodeOf(d).value != "" {
      assert IsCode(d, BankCodeOf(d).value);
    }
  }

  /** An entertainer is paid when VERIFIED with a confirmed account, under the legal name; in any other status, or
      unconfirmed, the payout is held; one nobody can address, or who does not exist, needs a person. */
  lemma EntertainerCases(id: string, entertainers: map<string, Entertainer>, venues: map<string, Venue>)
    ensures var d := ResolveDestination(Account(EntertainerPayable, Some(id)), entertainers, venues);
            if id == "" || id !in entertainers then d.NeedsReview?
            else
              var e := entertainers[id];
              if e.kycStatus in {NOT_STARTED, PENDING, KycStatus.FAILED, REVIEW, SUSPENDED}
                 || e.details.accountConfirmedAt == None then d == HoldBack
              else if IsAddressed(e.details) then Addresses(d, e.details, e.legalName)
              else d.NeedsReview?
  {
    if id in entertainers {
      var e := entertainers[id];
      AddressedIsSent(e.details, e.legalName, "Splitcore tip payout - " + e.stageName, "Missing bank account details");
    }
  }

  /** A venue is paid when its account is confirmed, under the name the bank gave, or its own if that is missing. */
  lemma VenueCases(id: string, entertainers: map<string, Entertainer>, venues: map<string, Venue>)
    ensures var d := ResolveDestination(Account(VenuePayable, Some(id)), entertainers, venues);
            if id == "" || id !in venues then d.NeedsReview?
            else
              var v := venues[id];
              var name := if v.details.resolvedAccountName == None then v.name else v.details.resolvedAccountName.value;
              if v.details.accountConfirmedAt == None then d == HoldBack
              else if IsAddressed(v.details) then Addresses(d, v.details, name)
              else d.NeedsReview?
  {
    if id in venues {
      var v := venues[id];
      AddressedIsSent(v.details,
                      if v.details.resolvedAccountName.Some? then v.details.resolvedAccountName.value else v.name,
                      "Splitcore venue payout - " + v.name, "Missing venue bank account details");
    }
  }

  /** Clearing and revenue accounts, and accounts without an owner, are never paid out. */
  lemma OthersNeedReview(account: Account, entertainers: map<string, Entertainer>, venues: map<string, Venue>)
    requires account.kind in {PlatformRevenue, ProcessorClearing} || account.owner in {None, Some("")}
    ensures ResolveDestination(account, entertainers, venues).NeedsReview?
  {
  }

  // ---------------------------------------------------------------- soundness across modules

  /** The gate on an entertainer's row and its history: money is sent exactly when onboarding says DONE (and the bank
      has a name), and then only to the number and code the bank last named a holder for, after that very name was
      accepted. */
  ghost predicate EntertainerGate(e: Entertainer, h: History, id: string, others: map<string, Entertainer>,
                                  venues: map<string, Venue>)
  {
    var d := ResolveDestination(Account(EntertainerPayable, Some(id)), others[id := e], venues);
    && (d.SendTo? <==> NextStep(e) == DONE && Present(e.details.bankName))
    && (d.HoldBack? <==> NextStep(e) != DONE)
    && (d.SendTo? ==>
          && h.resolvedPair == Some((d.accountNumber, d.bankCode)) && h.acceptedName.Some?
          && h.answer.Some? && NormalizeName(h.acceptedName.value) == NormalizeName(h.answer.value)
          && d.recipientName == e.legalName)
  }

  /** The same for a venue, where the recipient is called by the name the bank gave. */
  ghost predicate VenueGate(v: Venue, h: History, id: string, others: map<string, Venue>,
                            entertainers: map<string, Entertainer>)
  {
    var d := ResolveDestination(Account(VenuePayable, Some(id)), entertainers, others[id := v]);
    && (d.SendTo? <==> VenueNextStep(v) == DONE && Present(v.details.bankName))
    && (d.HoldBack? <==> VenueNextStep(v) != DONE)
    && (d.SendTo? ==>
          && h.resolvedPair == Some((d.accountNumber, d.bankCode)) && h.acceptedName.Some?
          && NormalizeName(h.acceptedName.value) == NormalizeName(d.recipientName)
          && h.answer == Some(d.recipientName))
  }

  lemma SafeEntertainerGate(e: Entertainer, h: History, id: string, others: map<string, Entertainer>,
                            venues: map<string, Venue>)
    requires KycSafe(e, h) && id != ""
    ensures EntertainerGate(e, h, id, others, venues)
  {
  }

  lemma SafeVenueGate(v: Venue, h: History, id: string, others: map<string, Venue>,
                      entertainers: map<string, Entertainer>)
    requires VenueSafe(v, h) && id != ""
    ensures VenueGate(v, h, id, others, entertainers)
  {
  }

  /** Whatever operations a fresh entertainer went through, one after the other. */
  lemma EntertainerDestinationIsSound(e: Entertainer, ops: seq<KycOp>, id: string, others: map<string, Entertainer>,
                                      venues: map<string, Venue>)
    requires Fresh(e) && id != ""
    ensures var o := RunKyc(e, ops); EntertainerGate(o.row, o.history, id, others, venues)
  {
    KycIsSound(e, ops);
    SafeEntertainerGate(RunKyc(e, ops).row, RunKyc(e, ops).history, id, others, venues);
  }

  lemma VenueDestinationIsSound(v: Venue, ops: seq<VenueOp>, id: string, others: map<string, Venue>,
                                entertainers: map<string, Entertainer>)
    requires v.details == NO_DETAILS && id != ""
    ensures var o := RunVenue(v, ops); VenueGate(o.row, o.history, id, others, entertainers)
  {
    VenueIsSound(v, ops);
    SafeVenueGate(RunVenue(v, ops).row, RunVenue(v, ops).history, id, others, entertainers);
  }

  /** However the calls overlap, as long as each write still finds what its condition asks for. */
  lemma OverlappingEntertainerDestination(e: Entertainer, events: seq<KycEvent>, id: string,
                                          others: map<string, Entertainer>, venues: map<string, Venue>)
    requires Fresh(e) && id != "" && forall i | 0 <= i < |events| :: KycMeetsAt(e, events, i)
    ensures var s := RunKycCalls(KycStart(e), events); EntertainerGate(s.row, s.history, id, others, venues)
  {
    KycSafeUpTo(e, events, |events|);
    assert events[..|events|] == events;
    var s := RunKycCalls(KycStart(e), events);
    SafeEntertainerGate(s.row, s.history, id, others, venues);
  }

  lemma OverlappingVenueDestination(v: Venue, events: seq<VenueEvent>, id: string,
                                    others: map<string, Venue>, entertainers: map<string, Entertainer>)
    requires v.details == NO_DETAILS && id != "" && forall i | 0 <= i < |events| :: VenueMeetsAt(v, events, i)
    ensures var s := RunVenueCalls(VenueStart(v), events); VenueGate(s.row, s.history, id, others, entertainers)
  {
    VenueSafeUpTo(v, events, |events|);
    assert events[..|events|] == events;
    var s := RunVenueCalls(VenueStart(v), events);
    SafeVenueGate(s.row, s.history, id, others, entertainers);
  }

  /** And it does go wrong otherwise: the first account number is sent to although the bank was last asked about the
      second, once the identity check succeeds. */
  lemma MisledDestination(e: Entertainer, h: History, id: string, others: map<string, Entertainer>,
                          venues: map<string, Venue>, first: string, second: string, bank: Bank)
    requires first != second && first != "" && id != "" && bank.name != "" && bank.code != ""
    requires e.details.accountNumber == Some(first) && e.details.bankName == Some(bank.name)
    requires e.details.bankCode == Some(bank.code) && e.details.accountConfirmedAt.Some?
    requires h.resolvedPair == Some((second, bank.code))
    ensures var paid := KycWrite(e, e, VerifyOp("BVN", IdentityVerified), 10);
            var d := ResolveDestination(Account(EntertainerPayable, Some(id)), others[id := paid], venues);
            d.SendTo? && d.accountNumber == first && !EntertainerGate(paid, h, id, others, venues)
  {
  }

  /** An account confirmed and then resolved again, which the bank refuses, stays confirmed: once the identity check
      succeeds, money is sent to the number and code the bank has just refused. */
  lemma SentAfterRefusal(e: Entertainer, accountNumber: string, bank: Bank, holder: string, message: string, id: string,
                         others: map<string, Entertainer>, venues: map<string, Venue>)
    requires Fresh(e) && accountNumber != "" && bank.code != "" && bank.name != "" && holder != "" && id != ""
    ensures exists ops: seq<KycOp> ::
              var o := RunKyc(e, ops);
              var d := ResolveDestination(Account(EntertainerPayable, Some(id)), others[id := o.row], venues);
              && d.SendTo? && d.accountNumber == accountNumber && d.bankCode == bank.code
              && o.history.refused == Some((accountNumber, bank.code)) && !Current(o.row.details, o.history)
  {
    var submit, resolve, confirm := SubmitOp(accountNumber, Some(bank)), ResolveOp(HolderName(holder)),
        ConfirmOp(holder);
    var refuse, verify := ResolveOp(Rejected(message)), VerifyOp("BVN", IdentityVerified);
    RunKycNext(e, [], submit);
    RunKycNext(e, [] + [submit], resolve);
    var resolved := RunKyc(e, [] + [submit] + [resolve]);
    assert resolved.row.details.resolvedAccountName == Some(holder) && Resolvable(resolved.row.details);
    RunKycNext(e, [] + [submit] + [resolve], confirm);
    var confirmed := RunKyc(e, [] + [submit] + [resolve] + [confirm]);
    assert confirmed.row.details.accountConfirmedAt.Some? && confirmed.row.kycStatus == PENDING;
    RunKycNext(e, [] + [submit] + [resolve] + [confirm], refuse);
    RunKycNext(e, [] + [submit] + [resolve] + [confirm] + [refuse], verify);
    var verified := RunKyc(e, [] + [submit] + [resolve] + [confirm] + [refuse] + [verify]);
    assert verified.row.kycStatus == VERIFIED && verified.row.details == confirmed.row.details;
  }

  lemma VenueSentAfterRefusal(v: Venue, accountNumber: string, bank: Bank, holder: string, message: string, id: string,
                              others: map<string, Venue>, entertainers: map<string, Entertainer>)
    requires v.details == NO_DETAILS && accountNumber != "" && bank.code != "" && bank.name != ""
    requires holder != "" && id != ""
    ensures exists ops: seq<VenueOp> ::
              var o := RunVenue(v, ops);
              var d := ResolveDestination(Account(VenuePayable, Some(id)), entertainers, others[id := o.row]);
              && d.SendTo? && d.accountNumber == accountNumber && d.bankCode == bank.code
              && o.history.refused == Some((accountNumber, bank.code)) && !Current(o.row.details, o.history)
  {
    var submit, resolve := VenueSubmitOp(accountNumber, Some(bank)), VenueResolveOp(HolderName(holder));
    var confirm, refuse := VenueConfirmOp(holder), VenueResolveOp(Rejected(message));
    RunVenueNext(v, [], submit);
    RunVenueNext(v, [] + [submit], resolve);
    var resolved := RunVenue(v, [] + [submit] + [resolve]);
    assert resolved.row.details.resolvedAccountName == Some(holder) && Resolvable(resolved.row.details);
    RunVenueNext(v, [] + [submit] + [resolve], confirm);
    var confirmed := RunVenue(v, [] + [submit] + [resolve] + [confirm]);
    assert confirmed.row.details.accountConfirmedAt.Some?;
    RunVenueNext(v, [] + [submit] + [resolve] + [confirm], refuse);
    assert RunVenue(v, [] + [submit] + [resolve] + [confirm] + [refuse]).row == confirmed.row;
  }

  // ---------------------------------------------------------------- the sweep

  datatype Candidate = Candidate(payoutId: nat, account: Account)

  /** The owners of one type appearing in the batch. */
  function OwnersOf(batch: seq<Candidate>, kind: AccountType): set<string> {
    set c <- batch | c.account.kind == kind && Present(c.account.owner) :: c.account.owner.value
  }

  function PayableOwners(batch: seq<Candidate>, entertainers: map<string, Entertainer>,
                         venues: map<string, Venue>): set<string> {
    (set id <- OwnersOf(batch, EntertainerPayable) | id in entertainers && PayoutsEnabled(entertainers[id]))
    + (set id <- OwnersOf(batch, VenuePayable) | id in venues && venues[id].details.accountConfirmedAt.Some?)
  }

  predicate IsDue(c: Candidate, payable: set<string>) {
    Present(c.account.owner) && c.account.owner.value in payable
  }

  /** What the sweep enqueues, in order. */
  function Due(batch: seq<Candidate>, payable: set<string>): seq<nat> {
    if |batch| == 0 then []
    else
      var c := batch[|batch| - 1];
      Due(batch[..|batch| - 1], payable) + if IsDue(c, payable) then [c.payoutId] else []
  }

  predicate PayableBatch(batch: seq<Candidate>) {
    forall c <- batch :: IsPayable(c.account.kind)
  }

  /** Every candidate that would be sent is enqueued, for any tables. */
  lemma SweepReleasesEverySend(batch: seq<Candidate>, c: Candidate, entertainers: map<string, Entertainer>,
                               venues: map<string, Venue>)
    requires c in batch && ResolveDestination(c.account, entertainers, venues).SendTo?
    ensures IsDue(c, PayableOwners(batch, entertainers, venues))
  {
    var kind := c.account.kind;
    assert c.account.owner.value in OwnersOf(batch, kind);
  }

  /** The owner id of a held candidate is payable in its other role within the batch. */
  ghost predicate PayableInOtherRole(c: Candidate, batch: seq<Candidate>, entertainers: map<string, Entertainer>,
                                     venues: map<string, Venue>) {
    Present(c.account.owner) && exists other <- batch ::
      && other.account.owner == c.account.owner && other.account.kind != c.account.kind
      && IsPayable(other.account.kind) && !ResolveDestination(other.account, entertainers, venues).HoldBack?
      && (if other.account.kind == EntertainerPayable then c.account.owner.value in entertainers
          else c.account.owner.value in venues)
  }

  /** A held candidate is enqueued exactly when some other candidate of the batch has the same owner id in the other
      table, where that id is payable. */
  lemma HeldIsEnqueuedOnlyByCollision(batch: seq<Candidate>, c: Candidate, entertainers: map<string, Entertainer>,
                                      venues: map<string, Venue>)
    requires c in batch && PayableBatch(batch) && ResolveDestination(c.account, entertainers, venues).HoldBack?
    ensures IsDue(c, PayableOwners(batch, entertainers, venues)) <==> PayableInOtherRole(c, batch, entertainers, venues)
  {
    var id := c.account.owner.value;
    var payable := PayableOwners(batch, entertainers, venues);
    if IsDue(c, payable) {
      var kind := if c.account.kind == EntertainerPayable then VenuePayable else EntertainerPayable;
      assert id in OwnersOf(batch, kind);
      var other :| other in batch && other.account.kind == kind && Present(other.account.owner)
          && other.account.owner.value == id;
      assert PayableInOtherRole(c, batch, entertainers, venues);
    }
    if PayableInOtherRole(c, batch, entertainers, venues) {
      var other :| other in batch && other.account.owner == c.account.owner && other.account.kind != c.account.kind
        && !ResolveDestination(other.account, entertainers, venues).HoldBack?
        && (if other.account.kind == EntertainerPayable then id in entertainers else id in venues);
      assert id in OwnersOf(batch, other.account.kind);
    }
  }

  /** For one: an entertainer who has not started onboarding is held, yet due because a confirmed venue has the same
      id. */
  lemma SharedIdReleasesHeld(e: Entertainer, v: Venue, id: string)
    requires Fresh(e) && v.details.accountConfirmedAt.Some? && id != ""
    ensures var held := Candidate(0, Account(EntertainerPayable, Some(id)));
            var batch := [held, Candidate(1, Account(VenuePayable, Some(id)))];
            && ResolveDestination(held.account, map[id := e], map[id := v]).HoldBack?
            && IsDue(held, PayableOwners(batch, map[id := e], map[id := v]))
  {
    var held, other := Candidate(0, Account(EntertainerPayable, Some(id))),
        Candidate(1, Account(VenuePayable, Some(id)));
    var batch := [held, other];
    assert held in batch && other in batch;
    assert PayableInOtherRole(held, batch, map[id := e], map[id := v]);
    HeldIsEnqueuedOnlyByCollision(batch, held, map[id := e], map[id := v]);
  }

  /** With no id shared between the two tables, the sweep and the gate agree: no held candidate is enqueued. */
  lemma SweepAgreesWithGate(batch: seq<Candidate>, c: Candidate, entertainers: map<string, Entertainer>,
                            venues: map<string, Venue>)
    requires c in batch && PayableBatch(batch) && entertainers.Keys !! venues.Keys
    ensures var d, due := ResolveDestination(c.account, entertainers, venues),
            IsDue(c, PayableOwners(batch, entertainers, venues));
            (d.SendTo? ==> due) && (d.HoldBack? ==> !due)
  {
    if ResolveDestination(c.account, entertainers, venues).SendTo? {
      SweepReleasesEverySend(batch, c, entertainers, venues);
    } else if ResolveDestination(c.account, entertainers, venues).HoldBack? {
      HeldIsEnqueuedOnlyByCollision(batch, c, entertainers, venues);
    }
  }
}
