/** Onboarding calls case by case: what each refuses and what each writes, on whatever row it meets; and how an
    entertainer comes to be VERIFIED. */
module OnboardingCases {
  import opened Wrappers
  import opened Names
  import opened Onboarding
  import opened OnboardingCalls

  // ---------------------------------------------------------------- what is refused

  predicate IsGiven(text: Option<string>) { text != None && text != Some("") }

  /** A suspended entertainer may do nothing; only an account that is confirmed is checked, and only once; only REVIEW
      is decided, and approved only with a confirmed account. */
  lemma KycAllows(seen: Entertainer, op: KycOp)
    ensures KycRefusal(seen, op) == None <==>
            match op
            case SubmitOp(_, bank) => seen.kycStatus != SUSPENDED && bank.Some?
            case ResolveOp(answer) =>
              seen.kycStatus != SUSPENDED && IsGiven(seen.details.accountNumber) && IsGiven(seen.details.bankCode)
              && answer != Broken
            case ConfirmOp(name) =>
              seen.kycStatus != SUSPENDED && IsGiven(seen.details.resolvedAccountName)
              && NormalizeName(name) == NormalizeName(seen.details.resolvedAccountName.value)
            case VerifyOp(_, _) =>
              seen.kycStatus in {NOT_STARTED, PENDING, KycStatus.FAILED, REVIEW}
                  && seen.details.accountConfirmedAt != None
            case DecideOp(approve, _) =>
              seen.kycStatus == REVIEW && (approve ==> seen.details.accountConfirmedAt != None)
  {
  }

  lemma VenueAllows(seen: Venue, op: VenueOp)
    ensures VenueRefusal(seen, op) == None <==>
            match op
            case VenueSubmitOp(_, bank) => bank.Some?
            case VenueResolveOp(answer) =>
              IsGiven(seen.details.accountNumber) && IsGiven(seen.details.bankCode) && answer.HolderName?
            case VenueConfirmOp(name) =>
              IsGiven(seen.details.resolvedAccountName)
              && NormalizeName(name) == NormalizeName(seen.details.resolvedAccountName.value)
  {
  }

  /** The step shown next is the one that may be taken, and the one after it is refused until then. */
  lemma NextStepCanBeTaken(e: Entertainer, accountNumber: string, bank: Bank, name: string, documentType: string,
                           outcome: IdentityOutcome)
    requires e.kycStatus != SUSPENDED
    ensures match NextStep(e)
            case BANK_DETAILS =>
              && KycRefusal(e, SubmitOp(accountNumber, Some(bank))) == None
              && KycRefusal(e, ResolveOp(HolderName(name))) == Some(DetailsMissing)
            case RESOLVE_ACCOUNT =>
              && KycRefusal(e, ResolveOp(HolderName(name))) == None
              && KycRefusal(e, ConfirmOp(name)) == Some(NotResolved)
            case CONFIRM_ACCOUNT =>
              && KycRefusal(e, ConfirmOp(e.details.resolvedAccountName.value)) == None
              && KycRefusal(e, VerifyOp(documentType, outcome)) == Some(NotConfirmed)
            case VERIFY_IDENTITY =>
              KycRefusal(e, VerifyOp(documentType, outcome)) == None && !PayoutsEnabled(e)
            case DONE => PayoutsEnabled(e) && KycRefusal(e, VerifyOp(documentType, outcome)) == Some(AlreadyVerified)
  {
  }

  // ---------------------------------------------------------------- what is written

  /** Another number or code than the call read drops the name, its confirmation and the identity check; the same ones
      keep all of that. Either way the entertainer is PENDING again. */
  lemma SubmissionWrites(row: Entertainer, seen: Entertainer, accountNumber: string, bank: Bank, now: nat)
    ensures var after, was := KycWrite(row, seen, SubmitOp(accountNumber, Some(bank)), now), row.details;
            var changed := seen.details.accountNumber != Some(accountNumber)
                || seen.details.bankCode != Some(bank.code);
            var submitted := row.(kycStatus := PENDING, kycSubmittedAt := Some(now));
            after == if changed
                     then submitted.(details := PayoutDetails(Some(bank.name), Some(bank.code), Some(accountNumber),
                                                              None, None, None),
                                     kycVerifiedAt := None, identityCheckType := None, identityCheckedAt := None,
                                     kycFailureReason := None)
                     else submitted.(details := PayoutDetails(Some(bank.name), Some(bank.code), Some(accountNumber),
                                                              was.resolvedAccountName, was.accountResolvedAt,
                                                              was.accountConfirmedAt))
  {
  }

  /** The bank's name is stored unconfirmed; its refusal makes the entertainer FAILED and leaves the account columns. */
  lemma ResolutionWrites(row: Entertainer, seen: Entertainer, name: string, message: string, now: nat)
    ensures var was := row.details;
            && KycWrite(row, seen, ResolveOp(HolderName(name)), now)
               == row.(details := PayoutDetails(was.bankName, was.bankCode, was.accountNumber, Some(name), Some(now),
                                                None),
                       kycStatus := PENDING, kycFailureReason := None)
            && KycThrows(row, ResolveOp(HolderName(name))) == None
            && KycWrite(row, seen, ResolveOp(Rejected(message)), now)
               == row.(kycStatus := KycStatus.FAILED, kycFailureReason := Some(message))
            && KycThrows(row, ResolveOp(Rejected(message))) == Some(Unresolvable(message))
  {
  }

  /** A confirmation dates the account and leaves the entertainer PENDING: it is no identity check. */
  lemma ConfirmationWrites(row: Entertainer, seen: Entertainer, name: string, now: nat)
    ensures var after := KycWrite(row, seen, ConfirmOp(name), now);
            if row.details.resolvedAccountName == None
            then after == row && KycThrows(row, ConfirmOp(name)) == Some(ConstraintViolated)
            else
              && after == row.(details := row.details.(accountConfirmedAt := Some(now)), kycStatus := PENDING,
                               kycFailureReason := None)
              && KycThrows(row, ConfirmOp(name)) == None
  {
  }

  /** A check that succeeds verifies, one that fails fails, and one that could not be made goes to review; none of them
      touches the account. */
  lemma IdentityWrites(row: Entertainer, seen: Entertainer, documentType: string, reason: string, now: nat)
    ensures var checked := row.(identityCheckType := Some(documentType));
            && KycWrite(row, seen, VerifyOp(documentType, IdentityVerified), now)
               == checked.(kycStatus := VERIFIED, kycVerifiedAt := Some(now), identityCheckedAt := Some(now),
                           kycFailureReason := None)
            && KycWrite(row, seen, VerifyOp(documentType, IdentityFailed(reason)), now)
               == checked.(kycStatus := KycStatus.FAILED, identityCheckedAt := Some(now),
                           kycFailureReason := Some(reason))
            && KycWrite(row, seen, VerifyOp(documentType, IdentityUnavailable(reason)), now)
               == checked.(kycStatus := REVIEW, identityCheckedAt := None, kycFailureReason := Some(reason))
  {
  }

  lemma DecisionWrites(row: Entertainer, seen: Entertainer, reason: string, now: nat)
    ensures var approved, rejected := KycWrite(row, seen, DecideOp(true, reason), now),
                KycWrite(row, seen, DecideOp(false, reason), now);
            && approved == row.(kycStatus := VERIFIED, kycVerifiedAt := Some(now),
                                kycFailureReason := approved.kycFailureReason)
            && rejected == row.(kycStatus := KycStatus.FAILED, kycFailureReason := rejected.kycFailureReason)
            && approved.kycFailureReason == Some("Manually approved: " + reason)
            && rejected.kycFailureReason == Some("Manually rejected: " + reason)
  {
  }

  lemma VenueWrites(row: Venue, seen: Venue, accountNumber: string, bank: Bank, name: string, now: nat)
    ensures var was := row.details;
            var changed := seen.details.accountNumber != Some(accountNumber)
                || seen.details.bankCode != Some(bank.code);
            && VenueWrite(row, seen, VenueSubmitOp(accountNumber, Some(bank)), now)
               == Venue(row.name,
                        if changed then PayoutDetails(Some(bank.name), Some(bank.code), Some(accountNumber), None,
                                                      None, None)
                        else PayoutDetails(Some(bank.name), Some(bank.code), Some(accountNumber),
                                           was.resolvedAccountName,
                                           was.accountResolvedAt, was.accountConfirmedAt))
            && VenueWrite(row, seen, VenueResolveOp(HolderName(name)), now)
               == Venue(row.name, PayoutDetails(was.bankName, was.bankCode, was.accountNumber, Some(name), Some(now),
                                                None))
            && VenueWrite(row, seen, VenueConfirmOp(name), now)
               == (if was.resolvedAccountName == None then row
                   else Venue(row.name, was.(accountConfirmedAt := Some(now))))
  {
  }

  // ---------------------------------------------------------------- who becomes VERIFIED

  /** The i-th event wrote VERIFIED: a successful identity check, or a person's approval out of REVIEW, and the row it
      was decided on had a confirmed account. */
  ghost predicate VerifiesAt(e: Entertainer, events: seq<KycEvent>, i: nat) {
    && i < |events| && events[i].Finish?
    && var calls := RunKycCalls(KycStart(e), events[..i]).calls;
       && events[i].c in calls && calls[events[i].c].seen.details.accountConfirmedAt.Some?
       && match calls[events[i].c].op
          case VerifyOp(_, outcome) => outcome == IdentityVerified
          case DecideOp(approve, _) => approve && calls[events[i].c].seen.kycStatus == REVIEW
          case _ => false
  }

  ghost predicate IsVerifiedAfter(e: Entertainer, events: seq<KycEvent>, n: nat)
    requires n <= |events|
  {
    RunKycCalls(KycStart(e), events[..n]).row.kycStatus == VERIFIED
  }

  /** However calls overlap: an entertainer who is VERIFIED was verified by such a write, and no write since has taken
      it back. */
  lemma {:induction false} VerifiedWasChecked(e: Entertainer, events: seq<KycEvent>)
    requires Fresh(e) && IsVerifiedAfter(e, events, |events|)
    ensures exists i: nat :: VerifiesAt(e, events, i)
              && forall n | i < n <= |events| :: IsVerifiedAfter(e, events, n)
  {
    assert events[..|events|] == events;
    if |events| > 0 {
      var shorter := events[..|events| - 1];
      assert forall n: nat | n <= |shorter| :: shorter[..n] == events[..n];
      if IsVerifiedAfter(e, shorter, |shorter|) {
        VerifiedWasChecked(e, shorter);
        var i: nat :| VerifiesAt(e, shorter, i) && forall n | i < n <= |shorter| :: IsVerifiedAfter(e, shorter, n);
        assert VerifiesAt(e, events, i);
        forall n | i < n <= |events| ensures IsVerifiedAfter(e, events, n) {
          assert n <= |shorter| ==> IsVerifiedAfter(e, shorter, n);
        }
      } else {
        KycCallsAlwaysOk(KycStart(e), shorter);
        assert shorter[..|shorter|] == shorter;
        OnlyChecksVerify(RunKycCalls(KycStart(e), shorter), events[|events| - 1]);
        assert VerifiesAt(e, events, |events| - 1);
      }
    }
  }

  lemma OnlyChecksVerify(s: KycState, event: KycEvent)
    requires KycCallsOk(s) && s.row.kycStatus != VERIFIED && KycApply(s, event).row.kycStatus == VERIFIED
    ensures event.Finish? && event.c in s.calls
    ensures var call := s.calls[event.c];
            && call.seen.details.accountConfirmedAt.Some?
            && match call.op
               case VerifyOp(_, outcome) => outcome == IdentityVerified
               case DecideOp(approve, _) => approve && call.seen.kycStatus == REVIEW
               case _ => false
  {
    assert KycRefusal(s.calls[event.c].seen, s.calls[event.c].op).None?;
  }
}
