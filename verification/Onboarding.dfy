/** KycService and VenuePayoutAccountService: how an account number becomes a payout destination. */
module Onboarding {
  import opened Wrappers
  import opened Names

  datatype KycStatus = NOT_STARTED | PENDING | VERIFIED | FAILED | REVIEW | SUSPENDED

  datatype Bank = Bank(name: string, code: string)

  /** The columns entertainers and venues share. Dates are clock readings. */
  datatype PayoutDetails = PayoutDetails(
    bankName: Option<string>, bankCode: Option<string>, accountNumber: Option<string>,
    resolvedAccountName: Option<string>, accountResolvedAt: Option<nat>, accountConfirmedAt: Option<nat>)

  const NO_DETAILS := PayoutDetails(None, None, None, None, None, None)

  datatype Entertainer = Entertainer(
    stageName: string, legalName: string, details: PayoutDetails, kycStatus: KycStatus,
    kycSubmittedAt: Option<nat>, kycVerifiedAt: Option<nat>, kycFailureReason: Option<string>,
    identityCheckType: Option<string>, identityCheckedAt: Option<nat>)

  datatype Venue = Venue(name: string, details: PayoutDetails)

  datatype OnboardingError =
    | NotFound | Suspended | UnknownBank | DetailsMissing | Unresolvable(message: string) | ProviderFailed
    | NotResolved | NameMismatch | NotConfirmed | AlreadyVerified | NotInReview | ConstraintViolated

  /** What the bank answers about an account number. */
  datatype Resolution = HolderName(name: string) | Rejected(message: string) | Broken

  datatype IdentityOutcome = IdentityVerified | IdentityFailed(reason: string) | IdentityUnavailable(reason: string)

  /** The row after an operation, and the exception it threw, if any. */
  datatype Outcome<Row> = Outcome(row: Row, error: Option<OnboardingError>)

  /** A nullable text column used as a condition: null and the empty string are both falsy. */
  predicate Present(text: Option<string>) {
    text.Some? && text.value != ""
  }

  // ---------------------------------------------------------------- the shared columns

  function SubmitDetails(d: PayoutDetails, accountNumber: string, bank: Bank): PayoutDetails {
    var stored := d.(bankName := Some(bank.name), bankCode := Some(bank.code), accountNumber := Some(accountNumber));
    if d.accountNumber != Some(accountNumber) || d.bankCode != Some(bank.code)
    then stored.(resolvedAccountName := None, accountResolvedAt := None, accountConfirmedAt := None)
    else stored
  }

  function ResolveDetails(d: PayoutDetails, name: string, now: nat): PayoutDetails {
    d.(resolvedAccountName := Some(name), accountResolvedAt := Some(now), accountConfirmedAt := None)
  }

  function ConfirmDetails(d: PayoutDetails, now: nat): PayoutDetails {
    d.(accountConfirmedAt := Some(now))
  }

  predicate Resolvable(d: PayoutDetails) {
    Present(d.accountNumber) && Present(d.bankCode)
  }

  function ConfirmError(d: PayoutDetails, confirmedName: string): Option<OnboardingError> {
    if !Present(d.resolvedAccountName) then Some(NotResolved)
    else if NormalizeName(confirmedName) != NormalizeName(d.resolvedAccountName.value) then Some(NameMismatch)
    else None
  }

  // ---------------------------------------------------------------- entertainers

  datatype KycOp =
    | SubmitOp(accountNumber: string, bank: Option<Bank>)
    | ResolveOp(answer: Resolution)
    | ConfirmOp(confirmedName: string)
    | VerifyOp(documentType: string, outcome: IdentityOutcome)
    | DecideOp(approve: bool, reason: string)

  /** One onboarding operation on one entertainer row. */
  function Kyc(e: Entertainer, op: KycOp, now: nat): Outcome<Entertainer> {
    if !op.DecideOp? && e.kycStatus == SUSPENDED then Outcome(e, Some(Suspended))
    else
      match op
      case SubmitOp(accountNumber, bank) => KycSubmit(e, accountNumber, bank, now)
      case ResolveOp(answer) => KycResolve(e, answer, now)
      case ConfirmOp(name) =>
        var error := ConfirmError(e.details, name);
        if error.Some? then Outcome(e, error)
        else Outcome(e.(details := ConfirmDetails(e.details, now), kycStatus := PENDING, kycFailureReason := None),
                     None)
      case VerifyOp(documentType, outcome) => KycVerify(e, documentType, outcome, now)
      case DecideOp(approve, reason) => KycDecide(e, approve, reason, now)
  }

  function KycSubmit(e: Entertainer, accountNumber: string, bank: Option<Bank>, now: nat): Outcome<Entertainer> {
    if bank.None? then Outcome(e, Some(UnknownBank))
    else
      var details := SubmitDetails(e.details, accountNumber, bank.value);
      var changed := e.details.accountNumber != Some(accountNumber) || e.details.bankCode != Some(bank.value.code);
      var row := e.(details := details, kycStatus := PENDING, kycSubmittedAt := Some(now));
      Outcome(if changed then row.(kycVerifiedAt := None, identityCheckType := None, identityCheckedAt := None,
                                   kycFailureReason := None)
              else row, None)
  }

  function KycResolve(e: Entertainer, answer: Resolution, now: nat): Outcome<Entertainer> {
    if !Resolvable(e.details) then Outcome(e, Some(DetailsMissing))
    else
      match answer
      case HolderName(name) =>
        Outcome(e.(details := ResolveDetails(e.details, name, now), kycStatus := PENDING, kycFailureReason := None),
                None)
      case Rejected(message) =>
        Outcome(e.(kycStatus := FAILED, kycFailureReason := Some(message)), Some(Unresolvable(message)))
      case Broken => Outcome(e, Some(ProviderFailed))
  }

  function KycVerify(e: Entertainer, documentType: string, outcome: IdentityOutcome, now: nat): Outcome<Entertainer> {
    if e.details.accountConfirmedAt.None? then Outcome(e, Some(NotConfirmed))
    else if e.kycStatus == VERIFIED then Outcome(e, Some(AlreadyVerified))
    else
      var checked := e.(identityCheckType := Some(documentType));
      match outcome
      case IdentityVerified =>
        Outcome(checked.(kycStatus := VERIFIED, kycVerifiedAt := Some(now), identityCheckedAt := Some(now),
                         kycFailureReason := None), None)
      case IdentityFailed(reason) =>
        Outcome(checked.(kycStatus := FAILED, identityCheckedAt := Some(now), kycFailureReason := Some(reason)), None)
      case IdentityUnavailable(reason) =>
        Outcome(checked.(kycStatus := REVIEW, identityCheckedAt := None, kycFailureReason := Some(reason)), None)
  }

  function KycDecide(e: Entertainer, approve: bool, reason: string, now: nat): Outcome<Entertainer> {
    if e.kycStatus != REVIEW then Outcome(e, Some(NotInReview))
    else if approve && e.details.accountConfirmedAt.None? then Outcome(e, Some(NotConfirmed))
    else if approve then
      Outcome(e.(kycStatus := VERIFIED, kycVerifiedAt := Some(now),
                 kycFailureReason := Some("Manually approved: " + reason)), None)
    else Outcome(e.(kycStatus := FAILED, kycFailureReason := Some("Manually rejected: " + reason)), None)
  }

  datatype KycStep = BANK_DETAILS | RESOLVE_ACCOUNT | CONFIRM_ACCOUNT | VERIFY_IDENTITY | DONE

  function NextStep(e: Entertainer): KycStep {
    if !Resolvable(e.details) then BANK_DETAILS
    else if !Present(e.details.resolvedAccountName) then RESOLVE_ACCOUNT
    else if e.details.accountConfirmedAt.None? then CONFIRM_ACCOUNT
    else if e.kycStatus == VERIFIED then DONE
    else VERIFY_IDENTITY
  }

  predicate PayoutsEnabled(e: Entertainer) {
    e.kycStatus == VERIFIED && e.details.accountConfirmedAt.Some?
  }

  // ---------------------------------------------------------------- venues

  datatype VenueOp =
    | VenueSubmitOp(accountNumber: string, bank: Option<Bank>)
    | VenueResolveOp(answer: Resolution)
    | VenueConfirmOp(confirmedName: string)

  function VenueAccount(v: Venue, op: VenueOp, now: nat): Outcome<Venue> {
    match op
    case VenueSubmitOp(accountNumber, bank) =>
      if bank.None? then Outcome(v, Some(UnknownBank))
      else Outcome(v.(details := SubmitDetails(v.details, accountNumber, bank.value)), None)
    case VenueResolveOp(answer) =>
      if !Resolvable(v.details) then Outcome(v, Some(DetailsMissing))
      else (match answer
            case HolderName(name) => Outcome(v.(details := ResolveDetails(v.details, name, now)), None)
            case Rejected(message) => Outcome(v, Some(Unresolvable(message)))
            case Broken => Outcome(v, Some(ProviderFailed)))
    case VenueConfirmOp(name) =>
      var error := ConfirmError(v.details, name);
      if error.Some? then Outcome(v, error) else Outcome(v.(details := ConfirmDetails(v.details, now)), None)
  }

  function VenueNextStep(v: Venue): KycStep {
    if !Resolvable(v.details) then BANK_DETAILS
    else if !Present(v.details.resolvedAccountName) then RESOLVE_ACCOUNT
    else if v.details.accountConfirmedAt.None? then CONFIRM_ACCOUNT
    else DONE
  }

  // ---------------------------------------------------------------- history

  /** The number and code the bank last named a holder for, the name it gave, the name accepted since then, and the
      number and code it refused since then. */
  datatype History = History(
    resolvedPair: Option<(string, string)>, answer: Option<string>, acceptedName: Option<string>,
    refused: Option<(string, string)>)

  const NO_HISTORY := History(None, None, None, None)

  function Pair(d: PayoutDetails): (string, string)
    requires Resolvable(d)
  {
    (d.accountNumber.value, d.bankCode.value)
  }

  /** The bank named this holder for the row's number and code. */
  function AfterResolving(d: PayoutDetails, name: string): History
    requires Resolvable(d)
  {
    History(Some(Pair(d)), Some(name), None, None)
  }

  /** The stored name is the bank's answer for the stored number and code; a confirmation is for that name. */
  predicate Sound(d: PayoutDetails, h: History) {
    && (Present(d.resolvedAccountName) ==>
          Resolvable(d) && h.resolvedPair == Some(Pair(d)) && h.answer == d.resolvedAccountName)
    && (d.accountConfirmedAt.Some? ==>
          && Present(d.resolvedAccountName) && h.acceptedName.Some?
          && NormalizeName(h.acceptedName.value) == NormalizeName(d.resolvedAccountName.value))
  }

  function KycHistory(e: Entertainer, h: History, op: KycOp): History {
    if op.ResolveOp? && op.answer.HolderName? && e.kycStatus != SUSPENDED && Resolvable(e.details)
    then AfterResolving(e.details, op.answer.name)
    else if op.ResolveOp? && op.answer.Rejected? && e.kycStatus != SUSPENDED && Resolvable(e.details)
    then h.(refused := Some(Pair(e.details)))
    else if op.ConfirmOp? && e.kycStatus != SUSPENDED && ConfirmError(e.details, op.confirmedName).None?
    then h.(acceptedName := Some(op.confirmedName))
    else h
  }

  function VenueHistory(v: Venue, h: History, op: VenueOp): History {
    if op.VenueResolveOp? && op.answer.HolderName? && Resolvable(v.details)
    then AfterResolving(v.details, op.answer.name)
    else if op.VenueResolveOp? && op.answer.Rejected? && Resolvable(v.details)
    then h.(refused := Some(Pair(v.details)))
    else if op.VenueConfirmOp? && ConfirmError(v.details, op.confirmedName).None?
    then h.(acceptedName := Some(op.confirmedName))
    else h
  }

  datatype Onboarded = Onboarded(row: Entertainer, history: History)

  datatype OnboardedVenue = OnboardedVenue(row: Venue, history: History)

  /** The row and its history after a sequence of operations; the i-th runs at clock reading i. */
  function RunKyc(e: Entertainer, ops: seq<KycOp>): Onboarded {
    if |ops| == 0 then Onboarded(e, NO_HISTORY)
    else
      var before, op := RunKyc(e, ops[..|ops| - 1]), ops[|ops| - 1];
      Onboarded(Kyc(before.row, op, |ops|).row, KycHistory(before.row, before.history, op))
  }

  function RunVenue(v: Venue, ops: seq<VenueOp>): OnboardedVenue {
    if |ops| == 0 then OnboardedVenue(v, NO_HISTORY)
    else
      var before, op := RunVenue(v, ops[..|ops| - 1]), ops[|ops| - 1];
      OnboardedVenue(VenueAccount(before.row, op, |ops|).row, VenueHistory(before.row, before.history, op))
  }

  lemma RunKycNext(e: Entertainer, ops: seq<KycOp>, op: KycOp)
    ensures var before := RunKyc(e, ops);
            RunKyc(e, ops + [op])
            == Onboarded(Kyc(before.row, op, |ops| + 1).row, KycHistory(before.row, before.history, op))
  {
    assert (ops + [op])[..|ops|] == ops;
  }

  lemma RunVenueNext(v: Venue, ops: seq<VenueOp>, op: VenueOp)
    ensures var before := RunVenue(v, ops);
            RunVenue(v, ops + [op])
            == OnboardedVenue(VenueAccount(before.row, op, |ops| + 1).row, VenueHistory(before.row, before.history, op))
  {
    assert (ops + [op])[..|ops|] == ops;
  }

  predicate Fresh(e: Entertainer) {
    e.details == NO_DETAILS && e.kycStatus == NOT_STARTED
  }

  lemma KycStepIsSound(e: Entertainer, h: History, op: KycOp, now: nat)
    requires Sound(e.details, h) && (e.kycStatus == VERIFIED ==> e.details.accountConfirmedAt.Some?)
    ensures var row := Kyc(e, op, now).row;
            && Sound(row.details, KycHistory(e, h, op))
            && (row.kycStatus == VERIFIED ==> row.details.accountConfirmedAt.Some?)
  {
  }

  /** After any operations on a fresh entertainer: the confirmation is for the pair last resolved, VERIFIED implies
      confirmed, and DONE is shown exactly when payouts are enabled. */
  lemma {:induction false} KycIsSound(e: Entertainer, ops: seq<KycOp>)
    requires Fresh(e)
    ensures var o := RunKyc(e, ops);
            && Sound(o.row.details, o.history)
            && (o.row.kycStatus == VERIFIED ==> o.row.details.accountConfirmedAt.Some?)
            && (NextStep(o.row) == DONE <==> PayoutsEnabled(o.row))
  {
    if |ops| > 0 {
      var before := RunKyc(e, ops[..|ops| - 1]);
      KycIsSound(e, ops[..|ops| - 1]);
      KycStepIsSound(before.row, before.history, ops[|ops| - 1], |ops|);
    }
  }

  lemma {:induction false} VenueIsSound(v: Venue, ops: seq<VenueOp>)
    requires v.details == NO_DETAILS
    ensures var o := RunVenue(v, ops);
            && Sound(o.row.details, o.history)
            && (VenueNextStep(o.row) == DONE <==> o.row.details.accountConfirmedAt.Some?)
  {
    if |ops| > 0 {
      VenueIsSound(v, ops[..|ops| - 1]);
    }
  }

  // ---------------------------------------------------------------- the bank's latest answer

  /** The bank has not refused the stored number and code since it named the stored holder. */
  predicate Current(d: PayoutDetails, h: History) {
    Present(d.resolvedAccountName) && Resolvable(d) ==> h.refused != Some(Pair(d))
  }

  /** A rejection that meets a row with a resolved name: it leaves name and confirmation where they are. */
  predicate RefusesResolved(d: PayoutDetails, answer: Resolution) {
    answer.Rejected? && Resolvable(d) && Present(d.resolvedAccountName)
  }

  predicate KycRefusesResolved(e: Entertainer, op: KycOp) {
    op.ResolveOp? && e.kycStatus != SUSPENDED && RefusesResolved(e.details, op.answer)
  }

  predicate VenueRefusesResolved(v: Venue, op: VenueOp) {
    op.VenueResolveOp? && RefusesResolved(v.details, op.answer)
  }

  lemma KycStepIsCurrent(e: Entertainer, h: History, op: KycOp, now: nat)
    requires Sound(e.details, h) && Current(e.details, h)
    ensures Current(Kyc(e, op, now).row.details, KycHistory(e, h, op)) <==> !KycRefusesResolved(e, op)
  {
  }

  lemma VenueStepIsCurrent(v: Venue, h: History, op: VenueOp, now: nat)
    requires Sound(v.details, h) && Current(v.details, h)
    ensures Current(VenueAccount(v, op, now).row.details, VenueHistory(v, h, op)) <==> !VenueRefusesResolved(v, op)
  {
  }

  ghost predicate KycCurrentAfter(e: Entertainer, ops: seq<KycOp>, n: nat)
    requires n <= |ops|
  {
    var o := RunKyc(e, ops[..n]); Current(o.row.details, o.history)
  }

  ghost predicate KycRefusesAt(e: Entertainer, ops: seq<KycOp>, i: nat)
    requires i < |ops|
  {
    KycRefusesResolved(RunKyc(e, ops[..i]).row, ops[i])
  }

  lemma KycCurrentNext(e: Entertainer, ops: seq<KycOp>, i: nat)
    requires Fresh(e) && i < |ops| && KycCurrentAfter(e, ops, i)
    ensures KycCurrentAfter(e, ops, i + 1) <==> !KycRefusesAt(e, ops, i)
  {
    var before := RunKyc(e, ops[..i]);
    KycIsSound(e, ops[..i]);
    assert ops[..i + 1][..i] == ops[..i];
    KycStepIsCurrent(before.row, before.history, ops[i], i + 1);
  }

  lemma {:induction false} KycCurrentUpTo(e: Entertainer, ops: seq<KycOp>, n: nat)
    requires Fresh(e) && n <= |ops| && forall i | 0 <= i < n :: !KycRefusesAt(e, ops, i)
    ensures KycCurrentAfter(e, ops, n)
  {
    if n > 0 {
      KycCurrentUpTo(e, ops, n - 1);
      KycCurrentNext(e, ops, n - 1);
    }
  }

  /** The bank's latest answer about the stored number and code is a name, throughout, exactly when no rejection meets
      a row with a resolved name. */
  lemma {:induction false} KycStaysCurrent(e: Entertainer, ops: seq<KycOp>)
    requires Fresh(e)
    ensures (forall n | 0 <= n <= |ops| :: KycCurrentAfter(e, ops, n))
            <==> (forall i | 0 <= i < |ops| :: !KycRefusesAt(e, ops, i))
  {
    if forall n | 0 <= n <= |ops| :: KycCurrentAfter(e, ops, n) {
      forall i | 0 <= i < |ops| ensures !KycRefusesAt(e, ops, i) {
        assert KycCurrentAfter(e, ops, i) && KycCurrentAfter(e, ops, i + 1);
        KycCurrentNext(e, ops, i);
      }
    }
    if forall i | 0 <= i < |ops| :: !KycRefusesAt(e, ops, i) {
      forall n | 0 <= n <= |ops| ensures KycCurrentAfter(e, ops, n) {
        KycCurrentUpTo(e, ops, n);
      }
    }
  }

  ghost predicate VenueCurrentAfter(v: Venue, ops: seq<VenueOp>, n: nat)
    requires n <= |ops|
  {
    var o := RunVenue(v, ops[..n]); Current(o.row.details, o.history)
  }

  ghost predicate VenueRefusesAt(v: Venue, ops: seq<VenueOp>, i: nat)
    requires i < |ops|
  {
    VenueRefusesResolved(RunVenue(v, ops[..i]).row, ops[i])
  }

  lemma VenueCurrentNext(v: Venue, ops: seq<VenueOp>, i: nat)
    requires v.details == NO_DETAILS && i < |ops| && VenueCurrentAfter(v, ops, i)
    ensures VenueCurrentAfter(v, ops, i + 1) <==> !VenueRefusesAt(v, ops, i)
  {
    var before := RunVenue(v, ops[..i]);
    VenueIsSound(v, ops[..i]);
    assert ops[..i + 1][..i] == ops[..i];
    VenueStepIsCurrent(before.row, before.history, ops[i], i + 1);
  }

  lemma {:induction false} VenueCurrentUpTo(v: Venue, ops: seq<VenueOp>, n: nat)
    requires v.details == NO_DETAILS && n <= |ops| && forall i | 0 <= i < n :: !VenueRefusesAt(v, ops, i)
    ensures VenueCurrentAfter(v, ops, n)
  {
    if n > 0 {
      VenueCurrentUpTo(v, ops, n - 1);
      VenueCurrentNext(v, ops, n - 1);
    }
  }

  lemma {:induction false} VenueStaysCurrent(v: Venue, ops: seq<VenueOp>)
    requires v.details == NO_DETAILS
    ensures (forall n | 0 <= n <= |ops| :: VenueCurrentAfter(v, ops, n))
            <==> (forall i | 0 <= i < |ops| :: !VenueRefusesAt(v, ops, i))
  {
    if forall n | 0 <= n <= |ops| :: VenueCurrentAfter(v, ops, n) {
      forall i | 0 <= i < |ops| ensures !VenueRefusesAt(v, ops, i) {
        assert VenueCurrentAfter(v, ops, i) && VenueCurrentAfter(v, ops, i + 1);
        VenueCurrentNext(v, ops, i);
      }
    }
    if forall i | 0 <= i < |ops| :: !VenueRefusesAt(v, ops, i) {
      forall n | 0 <= n <= |ops| ensures VenueCurrentAfter(v, ops, n) {
        VenueCurrentUpTo(v, ops, n);
      }
    }
  }

  // ---------------------------------------------------------------- a provider answer that comes back late

  /** The resolve step reads the row, asks the bank, then writes. The write keeps the row sound exactly when the
      number and code are still the ones that were asked about (or the bank gave no name). */
  lemma LateResolution(d: PayoutDetails, h: History, asked: (string, string), name: string, now: nat)
    requires Sound(d, h) && Resolvable(d)
    ensures Sound(ResolveDetails(d, name, now), History(Some(asked), Some(name), None, None))
            <==> name == "" || asked == Pair(d)
  {
  }

  /** The confirmation as the database takes it: the constraint "confirmed implies resolved" refuses it on a row whose
      name has been cleared. */
  function StoreConfirmation(d: PayoutDetails, now: nat): PayoutDetails {
    if d.resolvedAccountName.None? then d else ConfirmDetails(d, now)
  }

  /** The accepted name, unless the database refused the confirmation. */
  function AfterConfirming(d: PayoutDetails, h: History, accepted: string): History {
    if d.resolvedAccountName.None? then h else h.(acceptedName := Some(accepted))
  }

  /** The confirm step compares a name, then writes. The write keeps the row sound exactly when the database refuses it
      or the stored name is still one the accepted name stands for. */
  lemma LateConfirmation(d: PayoutDetails, h: History, accepted: string, now: nat)
    requires Sound(d, h)
    ensures Sound(StoreConfirmation(d, now), AfterConfirming(d, h, accepted))
            <==> d.resolvedAccountName.None? || ConfirmError(d, accepted).None?
  {
  }

  /** Overlapping calls do go wrong: new details submitted while the bank is asked about the old ones end up
      confirmed under the old account's name. */
  lemma OverlappingResolutionMisleads(bank: Bank, holder: string)
    requires holder != "" && bank.code != ""
    ensures var asked := SubmitDetails(NO_DETAILS, "0000000001", bank);
            var moved := SubmitDetails(asked, "0000000002", bank);
            var d := ConfirmDetails(ResolveDetails(moved, holder, 3), 4);
            && ConfirmError(ResolveDetails(moved, holder, 3), holder).None?
            && d.accountConfirmedAt.Some? && d.accountNumber == Some("0000000002")
            && !Sound(d, AfterResolving(asked, holder).(acceptedName := Some(holder)))
  {
    assert "0000000001"[9] != "0000000002"[9];
  }
}
