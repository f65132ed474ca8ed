/** Onboarding calls that overlap: each reads the row, may wait for the bank or the identity provider, and then writes
    what it decided from the row it read. */
module OnboardingCalls {
  import opened Wrappers
  import opened Onboarding

  /** The columns submitBankDetails writes; changed was decided on the row read before. */
  function StoreDetails(d: PayoutDetails, accountNumber: string, bank: Bank, changed: bool): PayoutDetails {
    var stored := d.(bankName := Some(bank.name), bankCode := Some(bank.code), accountNumber := Some(accountNumber));
    if changed then stored.(resolvedAccountName := None, accountResolvedAt := None, accountConfirmedAt := None)
        else stored
  }

  predicate SamePair(d: PayoutDetails, accountNumber: string, bankCode: string) {
    d.accountNumber == Some(accountNumber) && d.bankCode == Some(bankCode)
  }

  /** A submission that decided nothing changed keeps the row sound exactly when the row it meets has no resolved name,
      or still is about the number and code submitted. One that decided they changed always does. */
  lemma LateSubmission(d: PayoutDetails, h: History, accountNumber: string, bank: Bank, changed: bool)
    requires Sound(d, h)
    ensures Sound(StoreDetails(d, accountNumber, bank, changed), h)
            <==> changed || !Present(d.resolvedAccountName) || SamePair(d, accountNumber, bank.code)
  {
  }

  // ---------------------------------------------------------------- entertainers

  /** What a call throws on the row it read, before writing anything. */
  function KycRefusal(seen: Entertainer, op: KycOp): Option<OnboardingError> {
    if !op.DecideOp? && seen.kycStatus == SUSPENDED then Some(Suspended)
    else
      match op
      case SubmitOp(_, bank) => if bank.None? then Some(UnknownBank) else None
      case ResolveOp(answer) =>
        if !Resolvable(seen.details) then Some(DetailsMissing) else if answer.Broken? then Some(ProviderFailed)
            else None
      case ConfirmOp(name) => ConfirmError(seen.details, name)
      case VerifyOp(_, _) =>
        if seen.details.accountConfirmedAt.None? then Some(NotConfirmed)
        else if seen.kycStatus == VERIFIED then Some(AlreadyVerified)
        else None
      case DecideOp(approve, _) =>
        if seen.kycStatus != REVIEW then Some(NotInReview)
        else if approve && seen.details.accountConfirmedAt.None? then Some(NotConfirmed)
        else None
  }

  /** What a call throws when it writes: the bank rejected the details, or the database the confirmation. */
  function KycThrows(row: Entertainer, op: KycOp): Option<OnboardingError> {
    if op.ResolveOp? && op.answer.Rejected? then Some(Unresolvable(op.answer.message))
    else if op.ConfirmOp? && row.details.resolvedAccountName.None? then Some(ConstraintViolated)
    else None
  }

  /** The update of a call that read seen, met with the row as it is by then. */
  function KycWrite(row: Entertainer, seen: Entertainer, op: KycOp, now: nat): Entertainer {
    match op
    case SubmitOp(_, None) => row
    case SubmitOp(accountNumber, Some(bank)) =>
      var changed := !SamePair(seen.details, accountNumber, bank.code);
      var written := row.(details := StoreDetails(row.details, accountNumber, bank, changed),
                          kycStatus := PENDING, kycSubmittedAt := Some(now));
      if changed
      then written.(kycVerifiedAt := None, identityCheckType := None, identityCheckedAt := None,
                    kycFailureReason := None)
      else written
    case ResolveOp(HolderName(name)) =>
      row.(details := ResolveDetails(row.details, name, now), kycStatus := PENDING, kycFailureReason := None)
    case ResolveOp(Rejected(message)) => row.(kycStatus := FAILED, kycFailureReason := Some(message))
    case ResolveOp(Broken) => row
    case ConfirmOp(_) =>
      if row.details.resolvedAccountName.None? then row
      else row.(details := StoreConfirmation(row.details, now), kycStatus := PENDING, kycFailureReason := None)
    case VerifyOp(documentType, outcome) => VerifyWrite(row, documentType, outcome, now)
    case DecideOp(true, reason) =>
      row.(kycStatus := VERIFIED, kycVerifiedAt := Some(now), kycFailureReason := Some("Manually approved: " + reason))
    case DecideOp(false, reason) => row.(kycStatus := FAILED, kycFailureReason := Some("Manually rejected: " + reason))
  }

  function VerifyWrite(row: Entertainer, documentType: string, outcome: IdentityOutcome, now: nat): Entertainer {
    var checked := row.(identityCheckType := Some(documentType));
    match outcome
    case IdentityVerified =>
      checked.(kycStatus := VERIFIED, kycVerifiedAt := Some(now), identityCheckedAt := Some(now),
               kycFailureReason := None)
    case IdentityFailed(reason) =>
      checked.(kycStatus := FAILED, identityCheckedAt := Some(now), kycFailureReason := Some(reason))
    case IdentityUnavailable(reason) =>
      checked.(kycStatus := REVIEW, identityCheckedAt := None, kycFailureReason := Some(reason))
  }

  /** An undisturbed call: read and write on the same row. */
  lemma UndisturbedKyc(e: Entertainer, op: KycOp, now: nat)
    ensures Kyc(e, op, now) == if KycRefusal(e, op).Some? then Outcome(e, KycRefusal(e, op))
                               else Outcome(KycWrite(e, e, op, now), KycThrows(e, op))
  {
  }

  /** The history after the write of a call that read seen met this row. */
  function KycRecord(row: Entertainer, seen: Entertainer, h: History, op: KycOp): History {
    if op.ConfirmOp? then AfterConfirming(row.details, h, op.confirmedName) else KycHistory(seen, h, op)
  }

  datatype KycCall = KycCall(op: KycOp, seen: Entertainer)

  /** The row, its history, and the calls that have read but not written. */
  datatype KycState = KycState(row: Entertainer, history: History, calls: map<nat, KycCall>)

  datatype KycEvent = Begin(c: nat, op: KycOp) | Finish(c: nat, at: nat)

  function KycStart(e: Entertainer): KycState {
    KycState(e, NO_HISTORY, map[])
  }

  function KycApply(s: KycState, event: KycEvent): KycState {
    match event
    case Begin(c, op) =>
      if c in s.calls || KycRefusal(s.row, op).Some? then s else s.(calls := s.calls[c := KycCall(op, s.row)])
    case Finish(c, at) =>
      if c !in s.calls then s
      else
        var call := s.calls[c];
        KycState(KycWrite(s.row, call.seen, call.op, at), KycRecord(s.row, call.seen, s.history, call.op),
                 s.calls - {c})
  }

  function RunKycCalls(s: KycState, events: seq<KycEvent>): KycState {
    if |events| == 0 then s else KycApply(RunKycCalls(s, events[..|events| - 1]), events[|events| - 1])
  }

  lemma {:induction false} RunKycConcat(s: KycState, xs: seq<KycEvent>, ys: seq<KycEvent>)
    ensures RunKycCalls(s, xs + ys) == RunKycCalls(RunKycCalls(s, xs), ys)
  {
    if |ys| == 0 {
      assert xs + ys == xs;
    } else {
      assert (xs + ys)[..|xs + ys| - 1] == xs + ys[..|ys| - 1];
      RunKycConcat(s, xs, ys[..|ys| - 1]);
    }
  }

  /** The row is sound, VERIFIED implies confirmed, and DONE is shown exactly when payouts are enabled. */
  predicate KycSafe(row: Entertainer, h: History) {
    && Sound(row.details, h)
    && (row.kycStatus == VERIFIED ==> row.details.accountConfirmedAt.Some?)
    && (NextStep(row) == DONE <==> PayoutsEnabled(row))
  }

  /** What a late write must still find, checkable on the row just before it. */
  predicate KycMeets(row: Entertainer, seen: Entertainer, op: KycOp) {
    match op
    case SubmitOp(accountNumber, Some(bank)) =>
      || !SamePair(seen.details, accountNumber, bank.code) || !Present(row.details.resolvedAccountName)
      || SamePair(row.details, accountNumber, bank.code)
    case ResolveOp(HolderName(name)) =>
      || name == ""
      || (row.details.accountNumber == seen.details.accountNumber && row.details.bankCode == seen.details.bankCode)
    case ConfirmOp(name) => row.details.resolvedAccountName.None? || ConfirmError(row.details, name).None?
    case VerifyOp(_, IdentityVerified) => row.details.accountConfirmedAt.Some?
    case DecideOp(true, _) => row.details.accountConfirmedAt.Some?
    case _ => true
  }

  /** A late write keeps the row safe exactly when it meets its condition. */
  lemma LateKycWrite(row: Entertainer, h: History, seen: Entertainer, op: KycOp, now: nat)
    requires KycSafe(row, h) && KycRefusal(seen, op).None?
    ensures KycSafe(KycWrite(row, seen, op, now), KycRecord(row, seen, h, op)) <==> KycMeets(row, seen, op)
  {
    match op
    case SubmitOp(accountNumber, Some(bank)) =>
      LateSubmission(row.details, h, accountNumber, bank, !SamePair(seen.details, accountNumber, bank.code));
    case ConfirmOp(name) => LateConfirmation(row.details, h, name, now);
    case _ =>
  }

  /** A verification that comes back late keeps VERIFIED meaning confirmed exactly when the account still is. */
  lemma LateVerification(row: Entertainer, h: History, documentType: string, outcome: IdentityOutcome, now: nat)
    requires KycSafe(row, h)
    ensures KycSafe(VerifyWrite(row, documentType, outcome, now), h)
            <==> (outcome.IdentityVerified? ==> row.details.accountConfirmedAt.Some?)
  {
  }

  /** The event, if it is a write, meets its condition in this state. */
  predicate KycMeetsNow(s: KycState, event: KycEvent) {
    event.Finish? && event.c in s.calls ==> KycMeets(s.row, s.calls[event.c].seen, s.calls[event.c].op)
  }

  ghost predicate KycCallsOk(s: KycState) {
    forall c <- s.calls.Keys :: KycRefusal(s.calls[c].seen, s.calls[c].op).None?
  }

  lemma {:induction false} KycCallsAlwaysOk(s: KycState, events: seq<KycEvent>)
    requires KycCallsOk(s)
    ensures KycCallsOk(RunKycCalls(s, events))
  {
    if |events| > 0 {
      KycCallsAlwaysOk(s, events[..|events| - 1]);
    }
  }

  lemma KycStepSafe(s: KycState, event: KycEvent)
    requires KycSafe(s.row, s.history) && KycCallsOk(s)
    ensures var s' := KycApply(s, event); KycSafe(s'.row, s'.history) <==> KycMeetsNow(s, event)
  {
    if event.Finish? && event.c in s.calls {
      var call := s.calls[event.c];
      assert KycRefusal(call.seen, call.op).None?;
      LateKycWrite(s.row, s.history, call.seen, call.op, event.at);
    }
  }

  ghost predicate KycSafeAfter(e: Entertainer, events: seq<KycEvent>, n: nat)
    requires n <= |events|
  {
    var s := RunKycCalls(KycStart(e), events[..n]); KycSafe(s.row, s.history)
  }

  ghost predicate KycMeetsAt(e: Entertainer, events: seq<KycEvent>, i: nat)
    requires i < |events|
  {
    KycMeetsNow(RunKycCalls(KycStart(e), events[..i]), events[i])
  }

  lemma KycSafeNext(e: Entertainer, events: seq<KycEvent>, i: nat)
    requires i < |events| && KycSafeAfter(e, events, i)
    ensures KycSafeAfter(e, events, i + 1) <==> KycMeetsAt(e, events, i)
  {
    KycCallsAlwaysOk(KycStart(e), events[..i]);
    assert events[..i + 1][..i] == events[..i];
    KycStepSafe(RunKycCalls(KycStart(e), events[..i]), events[i]);
  }

  lemma {:induction false} KycSafeUpTo(e: Entertainer, events: seq<KycEvent>, n: nat)
    requires Fresh(e) && n <= |events| && forall i | 0 <= i < n :: KycMeetsAt(e, events, i)
    ensures KycSafeAfter(e, events, n)
  {
    if n > 0 {
      KycSafeUpTo(e, events, n - 1);
      KycSafeNext(e, events, n - 1);
    }
  }

  /** However calls on a fresh entertainer overlap: the row is safe throughout exactly when every write meets its
      condition on the row it finds. */
  lemma OverlappingKycIsSound(e: Entertainer, events: seq<KycEvent>)
    requires Fresh(e)
    ensures (forall n | 0 <= n <= |events| :: KycSafeAfter(e, events, n))
            <==> (forall i | 0 <= i < |events| :: KycMeetsAt(e, events, i))
  {
    if forall n | 0 <= n <= |events| :: KycSafeAfter(e, events, n) {
      forall i | 0 <= i < |events| ensures KycMeetsAt(e, events, i) {
        assert KycSafeAfter(e, events, i) && KycSafeAfter(e, events, i + 1);
        KycSafeNext(e, events, i);
      }
    }
    if forall i | 0 <= i < |events| :: KycMeetsAt(e, events, i) {
      forall n | 0 <= n <= |events| ensures KycSafeAfter(e, events, n) {
        KycSafeUpTo(e, events, n);
      }
    }
  }

  /** A call that no other call overlaps always meets its condition. */
  lemma UndisturbedMeets(e: Entertainer, h: History, op: KycOp)
    requires KycSafe(e, h) && KycRefusal(e, op).None?
    ensures KycMeets(e, e, op)
  {
  }

  // ---------------------------------------------------------------- overlaps that go wrong

  /** Submit, resolve and confirm one after the other, all as call c. */
  function Onboard(c: nat, accountNumber: string, bank: Bank, holder: string): seq<KycEvent> {
    [Begin(c, SubmitOp(accountNumber, Some(bank))), Finish(c, 1)]
    + [Begin(c, ResolveOp(HolderName(holder))), Finish(c, 2)]
    + [Begin(c, ConfirmOp(holder)), Finish(c, 3)]
  }

  lemma RunPair(s: KycState, a: KycEvent, b: KycEvent)
    ensures RunKycCalls(s, [a, b]) == KycApply(KycApply(s, a), b)
  {
    assert [a, b][..1] == [a] && [a][..0] == [];
    assert RunKycCalls(s, [a]) == KycApply(RunKycCalls(s, []), a);
    assert RunKycCalls(s, [a, b]) == KycApply(RunKycCalls(s, [a]), b);
  }

  /** The account is confirmed for this number, and only call c, if any, was touched. */
  predicate OnboardedFor(s: KycState, before: KycState, accountNumber: string, bank: Bank, holder: string) {
    && SamePair(s.row.details, accountNumber, bank.code) && s.row.details.resolvedAccountName == Some(holder)
    && s.row.details.accountConfirmedAt.Some? && s.row.kycStatus == PENDING
    && s.history == History(Some((accountNumber, bank.code)), Some(holder), Some(holder), None)
    && s.calls == before.calls
  }

  lemma Onboards(s: KycState, c: nat, accountNumber: string, bank: Bank, holder: string)
    requires c !in s.calls && s.row.kycStatus != SUSPENDED && accountNumber != "" && bank.code != "" && holder != ""
    ensures OnboardedFor(RunKycCalls(s, Onboard(c, accountNumber, bank, holder)), s, accountNumber, bank, holder)
  {
    var submit, resolve, confirm := SubmitOp(accountNumber, Some(bank)), ResolveOp(HolderName(holder)),
        ConfirmOp(holder);
    OneCall(s, c, submit, 1);
    var s1 := RunKycCalls(s, [Begin(c, submit), Finish(c, 1)]);
    OneCall(s1, c, resolve, 2);
    var s2 := RunKycCalls(s1, [Begin(c, resolve), Finish(c, 2)]);
    OneCall(s2, c, confirm, 3);
    RunKycConcat(s, [Begin(c, submit), Finish(c, 1)], [Begin(c, resolve), Finish(c, 2)]);
    RunKycConcat(s, [Begin(c, submit), Finish(c, 1)] + [Begin(c, resolve), Finish(c, 2)],
                 [Begin(c, confirm), Finish(c, 3)]);
  }

  lemma OneCall(s: KycState, c: nat, op: KycOp, at: nat)
    requires c !in s.calls && KycRefusal(s.row, op).None?
    ensures RunKycCalls(s, [Begin(c, op), Finish(c, at)])
            == KycState(KycWrite(s.row, s.row, op, at), KycRecord(s.row, s.row, s.history, op), s.calls)
  {
    RunPair(s, Begin(c, op), Finish(c, at));
    assert s.calls[c := KycCall(op, s.row)] - {c} == s.calls;
  }

  /** The same account is submitted again, and while the bank list is consulted another account is submitted, resolved
      and confirmed: the late submission, having seen no change, puts the first number under the second's answer. */
  lemma LateSubmissionMisleads(e: Entertainer, first: string, second: string, bank: Bank, holder: string)
    requires Fresh(e) && first != "" && second != "" && first != second && bank.code != "" && holder != ""
    ensures exists events :: var s := RunKycCalls(KycStart(e), events);
              && s.row.details.accountNumber == Some(first) && s.row.details.accountConfirmedAt.Some?
              && s.history.resolvedPair == Some((second, bank.code)) && !Sound(s.row.details, s.history)
  {
    var one, again := Onboard(0, first, bank, holder), Begin(1, SubmitOp(first, Some(bank)));
    var two, late := Onboard(0, second, bank, holder), Finish(1, 9);
    Onboards(KycStart(e), 0, first, bank, holder);
    var s1 := RunKycCalls(KycStart(e), one);
    var s2 := KycApply(s1, again);
    assert s2.calls[1] == KycCall(SubmitOp(first, Some(bank)), s1.row);
    Onboards(s2, 0, second, bank, holder);
    var s3 := RunKycCalls(s2, two);
    RunKycConcat(KycStart(e), one, [again] + two + [late]);
    ThenOne(s1, again, two, late);
    assert !Sound(KycApply(s3, late).row.details, KycApply(s3, late).history);
  }

  lemma ThenOne(s: KycState, a: KycEvent, middle: seq<KycEvent>, b: KycEvent)
    ensures RunKycCalls(s, [a] + middle + [b]) == KycApply(RunKycCalls(KycApply(s, a), middle), b)
  {
    RunKycConcat(s, [a], middle);
    assert [a][..0] == [] && RunKycCalls(s, [a]) == KycApply(s, a);
    assert ([a] + middle + [b])[..|[a] + middle|] == [a] + middle;
  }

  /** Another account is submitted while the identity check runs: its late answer verifies an unconfirmed account. */
  lemma LateVerificationMisleads(e: Entertainer, first: string, second: string, bank: Bank, holder: string,
                                 document: string)
    requires Fresh(e) && first != "" && second != "" && first != second && bank.code != "" && holder != ""
    ensures exists events :: var row := RunKycCalls(KycStart(e), events).row;
              row.kycStatus == VERIFIED && row.details.accountConfirmedAt.None?
  {
    var one := Onboard(0, first, bank, holder);
    Onboards(KycStart(e), 0, first, bank, holder);
    VerifiedLate(RunKycCalls(KycStart(e), one), second, bank, document);
    RunKycConcat(KycStart(e), one, LateCheck(second, bank, document));
  }

  /** An identity check, during which another account is submitted. */
  function LateCheck(accountNumber: string, bank: Bank, document: string): seq<KycEvent> {
    [Begin(1, VerifyOp(document, IdentityVerified))]
    + [Begin(0, SubmitOp(accountNumber, Some(bank))), Finish(0, 4)]
    + [Finish(1, 9)]
  }

  lemma VerifiedLate(s: KycState, accountNumber: string, bank: Bank, document: string)
    requires s.calls == map[] && s.row.kycStatus == PENDING && s.row.details.accountConfirmedAt.Some?
    requires !SamePair(s.row.details, accountNumber, bank.code)
    ensures var row := RunKycCalls(s, LateCheck(accountNumber, bank, document)).row;
            row.kycStatus == VERIFIED && row.details.accountConfirmedAt.None?
  {
    var check, late := Begin(1, VerifyOp(document, IdentityVerified)), Finish(1, 9);
    var submit := SubmitOp(accountNumber, Some(bank));
    var s2 := KycApply(s, check);
    assert s2.calls == map[1 := KycCall(VerifyOp(document, IdentityVerified), s.row)];
    OneCall(s2, 0, submit, 4);
    ThenOne(s, check, [Begin(0, submit), Finish(0, 4)], late);
  }

  // ---------------------------------------------------------------- venues

  function VenueRefusal(seen: Venue, op: VenueOp): Option<OnboardingError> {
    match op
    case VenueSubmitOp(_, bank) => if bank.None? then Some(UnknownBank) else None
    case VenueResolveOp(answer) =>
      if !Resolvable(seen.details) then Some(DetailsMissing)
      else (match answer
            case HolderName(_) => None
            case Rejected(message) => Some(Unresolvable(message))
            case Broken => Some(ProviderFailed))
    case VenueConfirmOp(name) => ConfirmError(seen.details, name)
  }

  function VenueWrite(row: Venue, seen: Venue, op: VenueOp, now: nat): Venue {
    match op
    case VenueSubmitOp(accountNumber, Some(bank)) =>
      row.(details := StoreDetails(row.details, accountNumber, bank, !SamePair(seen.details, accountNumber, bank.code)))
    case VenueResolveOp(HolderName(name)) => row.(details := ResolveDetails(row.details, name, now))
    case VenueConfirmOp(_) => row.(details := StoreConfirmation(row.details, now))
    case _ => row
  }

  function VenueThrows(row: Venue, op: VenueOp): Option<OnboardingError> {
    if op.VenueConfirmOp? && row.details.resolvedAccountName.None? then Some(ConstraintViolated) else None
  }

  function VenueRecord(row: Venue, seen: Venue, h: History, op: VenueOp): History {
    if op.VenueConfirmOp? then AfterConfirming(row.details, h, op.confirmedName) else VenueHistory(seen, h, op)
  }

  lemma UndisturbedVenue(v: Venue, op: VenueOp, now: nat)
    ensures VenueAccount(v, op, now) == if VenueRefusal(v, op).Some? then Outcome(v, VenueRefusal(v, op))
                                       else Outcome(VenueWrite(v, v, op, now), VenueThrows(v, op))
  {
  }

  datatype VenueCall = VenueCall(op: VenueOp, seen: Venue)

  datatype VenueState = VenueState(row: Venue, history: History, calls: map<nat, VenueCall>)

  datatype VenueEvent = VenueBegin(c: nat, op: VenueOp) | VenueFinish(c: nat, at: nat)

  function VenueStart(v: Venue): VenueState {
    VenueState(v, NO_HISTORY, map[])
  }

  function VenueApply(s: VenueState, event: VenueEvent): VenueState {
    match event
    case VenueBegin(c, op) =>
      if c in s.calls || VenueRefusal(s.row, op).Some? then s else s.(calls := s.calls[c := VenueCall(op, s.row)])
    case VenueFinish(c, at) =>
      if c !in s.calls then s
      else
        var call := s.calls[c];
        VenueState(VenueWrite(s.row, call.seen, call.op, at), VenueRecord(s.row, call.seen, s.history, call.op),
                   s.calls - {c})
  }

  function RunVenueCalls(s: VenueState, events: seq<VenueEvent>): VenueState {
    if |events| == 0 then s else VenueApply(RunVenueCalls(s, events[..|events| - 1]), events[|events| - 1])
  }

  /** The row is sound, and DONE is shown exactly when the account is confirmed. */
  predicate VenueSafe(row: Venue, h: History) {
    Sound(row.details, h) && (VenueNextStep(row) == DONE <==> row.details.accountConfirmedAt.Some?)
  }

  predicate VenueMeets(row: Venue, seen: Venue, op: VenueOp) {
    match op
    case VenueSubmitOp(accountNumber, Some(bank)) =>
      || !SamePair(seen.details, accountNumber, bank.code) || !Present(row.details.resolvedAccountName)
      || SamePair(row.details, accountNumber, bank.code)
    case VenueResolveOp(HolderName(name)) =>
      || name == ""
      || (row.details.accountNumber == seen.details.accountNumber && row.details.bankCode == seen.details.bankCode)
    case VenueConfirmOp(name) => row.details.resolvedAccountName.None? || ConfirmError(row.details, name).None?
    case _ => true
  }

  lemma LateVenueWrite(row: Venue, h: History, seen: Venue, op: VenueOp, now: nat)
    requires VenueSafe(row, h) && VenueRefusal(seen, op).None?
    ensures VenueSafe(VenueWrite(row, seen, op, now), VenueRecord(row, seen, h, op)) <==> VenueMeets(row, seen, op)
  {
    match op
    case VenueSubmitOp(accountNumber, Some(bank)) =>
      LateSubmission(row.details, h, accountNumber, bank, !SamePair(seen.details, accountNumber, bank.code));
    case VenueConfirmOp(name) => LateConfirmation(row.details, h, name, now);
    case _ =>
  }

  predicate VenueMeetsNow(s: VenueState, event: VenueEvent) {
    event.VenueFinish? && event.c in s.calls ==> VenueMeets(s.row, s.calls[event.c].seen, s.calls[event.c].op)
  }

  ghost predicate VenueCallsOk(s: VenueState) {
    forall c <- s.calls.Keys :: VenueRefusal(s.calls[c].seen, s.calls[c].op).None?
  }

  lemma {:induction false} VenueCallsAlwaysOk(s: VenueState, events: seq<VenueEvent>)
    requires VenueCallsOk(s)
    ensures VenueCallsOk(RunVenueCalls(s, events))
  {
    if |events| > 0 {
      VenueCallsAlwaysOk(s, events[..|events| - 1]);
    }
  }

  ghost predicate VenueSafeAfter(v: Venue, events: seq<VenueEvent>, n: nat)
    requires n <= |events|
  {
    var s := RunVenueCalls(VenueStart(v), events[..n]); VenueSafe(s.row, s.history)
  }

  ghost predicate VenueMeetsAt(v: Venue, events: seq<VenueEvent>, i: nat)
    requires i < |events|
  {
    VenueMeetsNow(RunVenueCalls(VenueStart(v), events[..i]), events[i])
  }

  lemma VenueSafeNext(v: Venue, events: seq<VenueEvent>, i: nat)
    requires i < |events| && VenueSafeAfter(v, events, i)
    ensures VenueSafeAfter(v, events, i + 1) <==> VenueMeetsAt(v, events, i)
  {
    VenueCallsAlwaysOk(VenueStart(v), events[..i]);
    assert events[..i + 1][..i] == events[..i];
    var s := RunVenueCalls(VenueStart(v), events[..i]);
    if events[i].VenueFinish? && events[i].c in s.calls {
      var call := s.calls[events[i].c];
      assert VenueRefusal(call.seen, call.op).None?;
      LateVenueWrite(s.row, s.history, call.seen, call.op, events[i].at);
    }
  }

  lemma {:induction false} VenueSafeUpTo(v: Venue, events: seq<VenueEvent>, n: nat)
    requires v.details == NO_DETAILS && n <= |events| && forall i | 0 <= i < n :: VenueMeetsAt(v, events, i)
    ensures VenueSafeAfter(v, events, n)
  {
    if n > 0 {
      VenueSafeUpTo(v, events, n - 1);
      VenueSafeNext(v, events, n - 1);
    }
  }

  /** The same for calls on a fresh venue. */
  lemma OverlappingVenueIsSound(v: Venue, events: seq<VenueEvent>)
    requires v.details == NO_DETAILS
    ensures (forall n | 0 <= n <= |events| :: VenueSafeAfter(v, events, n))
            <==> (forall i | 0 <= i < |events| :: VenueMeetsAt(v, events, i))
  {
    if forall n | 0 <= n <= |events| :: VenueSafeAfter(v, events, n) {
      forall i | 0 <= i < |events| ensures VenueMeetsAt(v, events, i) {
        assert VenueSafeAfter(v, events, i) && VenueSafeAfter(v, events, i + 1);
        VenueSafeNext(v, events, i);
      }
    }
    if forall i | 0 <= i < |events| :: VenueMeetsAt(v, events, i) {
      forall n | 0 <= n <= |events| ensures VenueSafeAfter(v, events, n) {
        VenueSafeUpTo(v, events, n);
      }
    }
  }
}
