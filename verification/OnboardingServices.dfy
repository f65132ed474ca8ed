/** KycService and VenuePayoutAccountService: each call reads its row, lets others act while it waits, and writes. */
module OnboardingServices {
  import opened Wrappers
  import opened Names
  import opened Onboarding
  import opened OnboardingCalls

  /** With nobody else around: the row is replaced by the operation's outcome; an unknown id changes nothing. */
  predicate KycDid(before: map<string, Entertainer>, after: map<string, Entertainer>, id: string, op: KycOp, now: nat,
                   error: Option<OnboardingError>)
  {
    if id !in before then error == Some(NotFound) && after == before
    else
      var outcome := Kyc(before[id], op, now);
      error == outcome.error && after == before[id := outcome.row]
  }

  predicate VenueDid(before: map<string, Venue>, after: map<string, Venue>, id: string, op: VenueOp, now: nat,
                     error: Option<OnboardingError>)
  {
    if id !in before then error == Some(NotFound) && after == before
    else
      var outcome := VenueAccount(before[id], op, now);
      error == outcome.error && after == before[id := outcome.row]
  }

  /** Stands for the row of a call that wrote nothing. */
  const NOBODY := Entertainer("", "", NO_DETAILS, NOT_STARTED, None, None, None, None, None)
  const NOWHERE := Venue("", NO_DETAILS)

  /** These reads and writes bring a fresh entertainer into this state. (The quantifier keeps the run folded.) */
  ghost predicate KycReached(e: Entertainer, events: seq<KycEvent>, s: KycState) {
    Fresh(e) && forall start: KycState | start == KycStart(e) :: RunKycCalls(start, events) == s
  }

  lemma KycReachesNext(e: Entertainer, events: seq<KycEvent>, s: KycState, event: KycEvent)
    requires KycReached(e, events, s)
    ensures KycReached(e, events + [event], KycApply(s, event))
  {
    assert (events + [event])[..|events|] == events;
    assert RunKycCalls(KycStart(e), events) == s;
  }

  ghost predicate VenueReached(v: Venue, events: seq<VenueEvent>, s: VenueState) {
    v.details == NO_DETAILS && forall start: VenueState | start == VenueStart(v) :: RunVenueCalls(start, events) == s
  }

  lemma VenueReachesNext(v: Venue, events: seq<VenueEvent>, s: VenueState, event: VenueEvent)
    requires VenueReached(v, events, s)
    ensures VenueReached(v, events + [event], VenueApply(s, event))
  {
    assert (events + [event])[..|events|] == events;
    assert RunVenueCalls(VenueStart(v), events) == s;
  }

  lemma AloneKyc(before: map<string, Entertainer>, after: map<string, Entertainer>, id: string, op: KycOp, now: nat,
                 error: Option<OnboardingError>)
    requires id in before && KycRefusal(before[id], op).None? && error == KycThrows(before[id], op)
    requires after == before[id := KycWrite(before[id], before[id], op, now)]
    ensures KycDid(before, after, id, op, now, error)
  {
    UndisturbedKyc(before[id], op, now);
  }

  lemma RefusedKyc(rows: map<string, Entertainer>, id: string, op: KycOp, now: nat)
    requires id in rows && KycRefusal(rows[id], op).Some?
    ensures KycDid(rows, rows, id, op, now, KycRefusal(rows[id], op))
  {
    UndisturbedKyc(rows[id], op, now);
    assert rows[id := rows[id]] == rows;
  }

  lemma AloneVenue(before: map<string, Venue>, after: map<string, Venue>, id: string, op: VenueOp, now: nat,
                   error: Option<OnboardingError>)
    requires id in before && VenueRefusal(before[id], op).None? && error == VenueThrows(before[id], op)
    requires after == before[id := VenueWrite(before[id], before[id], op, now)]
    ensures VenueDid(before, after, id, op, now, error)
  {
    UndisturbedVenue(before[id], op, now);
  }

  lemma RefusedVenue(rows: map<string, Venue>, id: string, op: VenueOp, now: nat)
    requires id in rows && VenueRefusal(rows[id], op).Some?
    ensures VenueDid(rows, rows, id, op, now, VenueRefusal(rows[id], op))
  {
    UndisturbedVenue(rows[id], op, now);
    assert rows[id := rows[id]] == rows;
  }

  /** So a service's row is safe as long as every write so far met its condition. */
  lemma ReachedIsSafe(e: Entertainer, events: seq<KycEvent>, s: KycState)
    requires KycReached(e, events, s) && forall i | 0 <= i < |events| :: KycMeetsAt(e, events, i)
    ensures KycSafe(s.row, s.history)
  {
    KycSafeUpTo(e, events, |events|);
    assert events[..|events|] == events;
    assert RunKycCalls(KycStart(e), events) == s;
  }

  lemma ReachedVenueIsSafe(v: Venue, events: seq<VenueEvent>, s: VenueState)
    requires VenueReached(v, events, s) && forall i | 0 <= i < |events| :: VenueMeetsAt(v, events, i)
    ensures VenueSafe(s.row, s.history)
  {
    VenueSafeUpTo(v, events, |events|);
    assert events[..|events|] == events;
    assert RunVenueCalls(VenueStart(v), events) == s;
  }

  class KycService {
    /** Whether nobody else acts while a call is under way. */
    ghost const alone: bool
    /** The rows as they were created. */
    ghost const created: map<string, Entertainer>

    var entertainers: map<string, Entertainer>
    /** Every read and write of every call on a row, in order, and the state they led to. */
    ghost var events: map<string, seq<KycEvent>>
    ghost var states: map<string, KycState>

    ghost predicate RowOk(id: string)
      requires id in created && id in entertainers && id in events && id in states
      reads this
    {
      entertainers[id] == states[id].row && KycReached(created[id], events[id], states[id])
    }

    /** Every row is what the calls on it made of the one created. */
    ghost predicate Valid()
      reads this
    {
      && created.Keys == entertainers.Keys && created.Keys == events.Keys && created.Keys == states.Keys
      && forall id <- created.Keys :: RowOk(id)
    }

    /** Call c of op has read this row and not written yet. */
    ghost predicate Pending(c: nat, id: string, op: KycOp, seen: Entertainer)
      reads this
    {
      id in states && c in states[id].calls && states[id].calls[c] == KycCall(op, seen)
    }

    ghost predicate Idle(c: nat, id: string)
      reads this
    {
      id in states ==> c !in states[id].calls
    }

    constructor (ghost alone: bool, rows: map<string, Entertainer>)
      requires forall id <- rows.Keys :: Fresh(rows[id])
      ensures Valid() && this.alone == alone && created == rows && entertainers == rows
      ensures events == map id <- rows.Keys :: []
    {
      this.alone, created, entertainers := alone, rows, rows;
      events := map id <- rows.Keys :: [];
      states := map id <- rows.Keys :: KycStart(rows[id]);
    }

    /** Call c of op has been begun since these events. */
    ghost predicate Begun(before: map<string, seq<KycEvent>>, c: nat, id: string, op: KycOp)
      reads this
    {
      id in before && id in events && before[id] + [Begin(c, op)] <= events[id]
    }

    /** Whatever other calls do meanwhile. */
    method Elsewhere(ghost c: nat, id: string, ghost op: KycOp, ghost seen: Entertainer,
                     ghost before: map<string, seq<KycEvent>>)
      requires Valid() && id in entertainers && Pending(c, id, op, seen) && Begun(before, c, id, op)
      modifies this
      ensures Valid() && id in entertainers && Pending(c, id, op, seen) && Begun(before, c, id, op)
      ensures alone ==> unchanged(this)
    {
    }

    ghost method Read(c: nat, id: string, op: KycOp, now: nat)
      requires Valid() && id in entertainers && Idle(c, id)
      modifies this`events, this`states
      ensures Valid() && Begun(old(events), c, id, op)
      ensures Refused(old(events), entertainers, c, id, op, KycRefusal(entertainers[id], op))
      ensures KycRefusal(entertainers[id], op).None? ==> Pending(c, id, op, entertainers[id])
      ensures KycRefusal(entertainers[id], op).Some? ==>
              KycDid(entertainers, entertainers, id, op, now, KycRefusal(entertainers[id], op))
    {
      if KycRefusal(entertainers[id], op).Some? {
        RefusedKyc(entertainers, id, op, now);
      }
      assert RowOk(id);
      KycReachesNext(created[id], events[id], states[id], Begin(c, op));
      ghost var next := KycApply(states[id], Begin(c, op));
      assert next.row == states[id].row;
      events := events[id := events[id] + [Begin(c, op)]];
      states := states[id := next];
    }

    /** The update of call c. */
    method Write(ghost c: nat, id: string, ghost op: KycOp, ghost seen: Entertainer, ghost at: nat, row: Entertainer,
                 ghost before: map<string, seq<KycEvent>>,
                 ghost rows: map<string, Entertainer>)
      returns (ghost error: Option<OnboardingError>, ghost met: KycState)
      requires Valid() && id in entertainers && Pending(c, id, op, seen) && Begun(before, c, id, op)
      requires row == KycWrite(entertainers[id], seen, op, at)
      requires id in rows && rows[id] == seen && KycRefusal(seen, op).None? && (alone ==> entertainers == rows)
      modifies this
      ensures Valid() && error == KycThrows(old(entertainers)[id], op)
      ensures Called(before, rows, met, c, id, op, at, error)
      ensures alone ==> KycDid(rows, entertainers, id, op, at, error)
    {
      assert RowOk(id);
      met, error := states[id], KycThrows(entertainers[id], op);
      KycReachesNext(created[id], events[id], met, Finish(c, at));
      ghost var next := KycApply(met, Finish(c, at));
      assert next.row == row;
      ghost var earlier := events[id];
      entertainers, events, states :=
        entertainers[id := row], events[id := earlier + [Finish(c, at)]], states[id := next];
      assert events[id][..|events[id]| - 1] == earlier;
      if alone {
        AloneKyc(rows, entertainers, id, op, at, error);
      }
    }

    /** The call read this row and refused it, writing nothing. */
    ghost predicate Refused(before: map<string, seq<KycEvent>>, rows: map<string, Entertainer>, c: nat, id: string,
                            op: KycOp, error: Option<OnboardingError>)
      reads this
    {
      && id in rows && error == KycRefusal(rows[id], op) && entertainers == rows
      && id in before && events == before[id := before[id] + [Begin(c, op)]]
    }

    /** The call's write is the last event: it met the state met, with the row the call had read still in its hands. */
    ghost predicate Wrote(before: map<string, seq<KycEvent>>, met: KycState, seen: Entertainer, c: nat, id: string,
                          op: KycOp, at: nat)
      reads this
    {
      && id in before && id in events && id in states && id in created && |events[id]| > 0
      && var earlier := events[id][..|events[id]| - 1];
         && before[id] + [Begin(c, op)] <= earlier && events[id] == earlier + [Finish(c, at)]
         && c in met.calls && met.calls[c] == KycCall(op, seen) && KycReached(created[id], earlier, met)
         && states[id] == KycApply(met, Finish(c, at))
    }

    /** A call: unknown, refused on the row it read, or written. */
    ghost predicate Called(before: map<string, seq<KycEvent>>, rows: map<string, Entertainer>, met: KycState, c: nat,
                           id: string, op: KycOp, at: nat, error: Option<OnboardingError>)
      reads this
    {
      if id !in rows then error == Some(NotFound) && entertainers == rows && events == before
      else if KycRefusal(rows[id], op).Some? then Refused(before, rows, c, id, op, error)
      else error == KycThrows(met.row, op) && Wrote(before, met, rows[id], c, id, op, at)
    }

    method SubmitBankDetails(ghost c: nat, id: string, accountNumber: string, bank: Option<Bank>, now: nat)
      returns (error: Option<OnboardingError>, ghost met: KycState)
      requires Valid() && Idle(c, id)
      modifies this
      ensures Valid() && Called(old(events), old(entertainers), met, c, id, SubmitOp(accountNumber, bank), now, error)
      ensures alone ==> KycDid(old(entertainers), entertainers, id, SubmitOp(accountNumber, bank), now, error)
    {
      met := KycState(NOBODY, NO_HISTORY, map[]);
      if id !in entertainers { return Some(NotFound), met; }
      var seen := entertainers[id];
      ghost var op := SubmitOp(accountNumber, bank);
      ghost var before, rows := events, entertainers;
      Read(c, id, op, now);
      if seen.kycStatus == SUSPENDED { return Some(Suspended), met; }
      if bank.None? { return Some(UnknownBank), met; }
      Elsewhere(c, id, op, seen, before);
      var row := entertainers[id];
      var written := Submitted(row, seen, accountNumber, bank.value, now);
      ghost var thrown;
      thrown, met := Write(c, id, op, seen, now, written, before, rows);
      error := None;
    }

    /** The submission, as decided on the row read, on the row as it is by then. */
    method Submitted(row: Entertainer, seen: Entertainer, accountNumber: string, bank: Bank, now: nat)
      returns (written: Entertainer)
      ensures written == KycWrite(row, seen, SubmitOp(accountNumber, Some(bank)), now)
    {
      var changed := seen.details.accountNumber != Some(accountNumber) || seen.details.bankCode != Some(bank.code);
      var details := row.details.(bankName := Some(bank.name), bankCode := Some(bank.code),
                                  accountNumber := Some(accountNumber));
      written := row;
      if changed {
        details := details.(resolvedAccountName := None, accountResolvedAt := None, accountConfirmedAt := None);
        written := written.(kycVerifiedAt := None, identityCheckType := None, identityCheckedAt := None,
                            kycFailureReason := None);
      }
      written := written.(details := details, kycStatus := PENDING, kycSubmittedAt := Some(now));
    }

    method ResolveAccount(ghost c: nat, id: string, answer: Resolution, now: nat)
      returns (error: Option<OnboardingError>, ghost met: KycState)
      requires Valid() && Idle(c, id)
      modifies this
      ensures Valid() && Called(old(events), old(entertainers), met, c, id, ResolveOp(answer), now, error)
      ensures alone ==> KycDid(old(entertainers), entertainers, id, ResolveOp(answer), now, error)
    {
      met := KycState(NOBODY, NO_HISTORY, map[]);
      if id !in entertainers { return Some(NotFound), met; }
      var seen := entertainers[id];
      ghost var op := ResolveOp(answer);
      ghost var before, rows := events, entertainers;
      Read(c, id, op, now);
      if seen.kycStatus == SUSPENDED { return Some(Suspended), met; }
      if !Present(seen.details.accountNumber) || !Present(seen.details.bankCode) { return Some(DetailsMissing), met; }
      if answer.Broken? { return Some(ProviderFailed), met; }
      Elsewhere(c, id, op, seen, before);
      var row := entertainers[id];
      var written := Answered(row, seen, answer, now);
      ghost var thrown;
      thrown, met := Write(c, id, op, seen, now, written, before, rows);
      error := if answer.Rejected? then Some(Unresolvable(answer.message)) else None;
    }

    /** The bank's answer on the row as it is by then. */
    method Answered(row: Entertainer, ghost seen: Entertainer, answer: Resolution, now: nat)
      returns (written: Entertainer)
      requires !answer.Broken?
      ensures written == KycWrite(row, seen, ResolveOp(answer), now)
    {
      match answer {
        case HolderName(name) =>
          var details := row.details.(resolvedAccountName := Some(name), accountResolvedAt := Some(now),
                                      accountConfirmedAt := None);
          written := row.(details := details, kycStatus := PENDING, kycFailureReason := None);
        case Rejected(message) =>
          written := row.(kycStatus := FAILED, kycFailureReason := Some(message));
      }
    }

    method ConfirmAccount(ghost c: nat, id: string, confirmedName: string, now: nat)
      returns (error: Option<OnboardingError>, ghost met: KycState)
      requires Valid() && Idle(c, id)
      modifies this
      ensures Valid() && Called(old(events), old(entertainers), met, c, id, ConfirmOp(confirmedName), now, error)
      ensures alone ==> KycDid(old(entertainers), entertainers, id, ConfirmOp(confirmedName), now, error)
    {
      met := KycState(NOBODY, NO_HISTORY, map[]);
      if id !in entertainers { return Some(NotFound), met; }
      var seen := entertainers[id];
      ghost var op := ConfirmOp(confirmedName);
      ghost var before, rows := events, entertainers;
      Read(c, id, op, now);
      if seen.kycStatus == SUSPENDED { return Some(Suspended), met; }
      if !Present(seen.details.resolvedAccountName) { return Some(NotResolved), met; }
      if NormalizeName(confirmedName) != NormalizeName(seen.details.resolvedAccountName.value) {
        return Some(NameMismatch), met;
      }
      Elsewhere(c, id, op, seen, before);
      var row := entertainers[id];
      var written;
      written, error := Confirmed(row, seen, confirmedName, now);
      ghost var thrown;
      thrown, met := Write(c, id, op, seen, now, written, before, rows);
    }

    /** The confirmation on the row as it is by then; the database refuses it without a resolved name. */
    method Confirmed(row: Entertainer, ghost seen: Entertainer, confirmedName: string, now: nat)
      returns (written: Entertainer, error: Option<OnboardingError>)
      ensures written == KycWrite(row, seen, ConfirmOp(confirmedName), now)
      ensures error == KycThrows(row, ConfirmOp(confirmedName))
    {
      if row.details.resolvedAccountName.None? {
        return row, Some(ConstraintViolated);
      }
      written := row.(details := row.details.(accountConfirmedAt := Some(now)), kycStatus := PENDING,
                      kycFailureReason := None);
      error := None;
    }

    method VerifyIdentity(ghost c: nat, id: string, documentType: string, outcome: IdentityOutcome, now: nat)
      returns (error: Option<OnboardingError>, ghost met: KycState)
      requires Valid() && Idle(c, id)
      modifies this
      ensures Valid() && Called(old(events), old(entertainers), met, c, id, VerifyOp(documentType, outcome), now, error)
      ensures alone ==> KycDid(old(entertainers), entertainers, id, VerifyOp(documentType, outcome), now, error)
    {
      met := KycState(NOBODY, NO_HISTORY, map[]);
      if id !in entertainers { return Some(NotFound), met; }
      var seen := entertainers[id];
      ghost var op := VerifyOp(documentType, outcome);
      ghost var before, rows := events, entertainers;
      Read(c, id, op, now);
      if seen.kycStatus == SUSPENDED { return Some(Suspended), met; }
      if seen.details.accountConfirmedAt.None? { return Some(NotConfirmed), met; }
      if seen.kycStatus == VERIFIED { return Some(AlreadyVerified), met; }
      Elsewhere(c, id, op, seen, before);
      var row := entertainers[id];
      var written := Checked(row, documentType, outcome, now);
      ghost var thrown;
      thrown, met := Write(c, id, op, seen, now, written, before, rows);
      error := None;
    }

    /** The identity provider's answer on the row as it is by then. */
    method Checked(row: Entertainer, documentType: string, outcome: IdentityOutcome, now: nat)
      returns (written: Entertainer)
      ensures written == VerifyWrite(row, documentType, outcome, now)
    {
      written := row.(identityCheckType := Some(documentType));
      match outcome {
        case IdentityVerified =>
          written := written.(kycStatus := VERIFIED, kycVerifiedAt := Some(now), identityCheckedAt := Some(now),
                              kycFailureReason := None);
        case IdentityFailed(reason) =>
          written := written.(kycStatus := FAILED, identityCheckedAt := Some(now), kycFailureReason := Some(reason));
        case IdentityUnavailable(reason) =>
          written := written.(kycStatus := REVIEW, identityCheckedAt := None, kycFailureReason := Some(reason));
      }
    }

    method DecideReview(ghost c: nat, id: string, approve: bool, reason: string, now: nat)
      returns (error: Option<OnboardingError>, ghost met: KycState)
      requires Valid() && Idle(c, id)
      modifies this
      ensures Valid() && Called(old(events), old(entertainers), met, c, id, DecideOp(approve, reason), now, error)
      ensures alone ==> KycDid(old(entertainers), entertainers, id, DecideOp(approve, reason), now, error)
    {
      met := KycState(NOBODY, NO_HISTORY, map[]);
      if id !in entertainers { return Some(NotFound), met; }
      var seen := entertainers[id];
      ghost var op := DecideOp(approve, reason);
      ghost var before, rows := events, entertainers;
      Read(c, id, op, now);
      if seen.kycStatus != REVIEW { return Some(NotInReview), met; }
      if approve && seen.details.accountConfirmedAt.None? { return Some(NotConfirmed), met; }
      Elsewhere(c, id, op, seen, before);
      var row := entertainers[id];
      var written :=
        if approve
        then row.(kycStatus := VERIFIED, kycVerifiedAt := Some(now),
                  kycFailureReason := Some("Manually approved: " + reason))
        else row.(kycStatus := FAILED, kycFailureReason := Some("Manually rejected: " + reason));
      ghost var thrown;
      thrown, met := Write(c, id, op, seen, now, written, before, rows);
      error := None;
    }
  }

  class VenuePayoutAccountService {
    /** Whether nobody else acts while a call is under way. */
    ghost const alone: bool
    /** The rows as they were created. */
    ghost const created: map<string, Venue>

    var venues: map<string, Venue>
    /** Every read and write of every call on a row, in order, and the state they led to. */
    ghost var events: map<string, seq<VenueEvent>>
    ghost var states: map<string, VenueState>

    ghost predicate RowOk(id: string)
      requires id in created && id in venues && id in events && id in states
      reads this
    {
      venues[id] == states[id].row && VenueReached(created[id], events[id], states[id])
    }

    /** Every row is what the calls on it made of the one created. */
    ghost predicate Valid()
      reads this
    {
      && created.Keys == venues.Keys && created.Keys == events.Keys && created.Keys == states.Keys
      && forall id <- created.Keys :: RowOk(id)
    }

    /** Call c of op has read this row and not written yet. */
    ghost predicate Pending(c: nat, id: string, op: VenueOp, seen: Venue)
      reads this
    {
      id in states && c in states[id].calls && states[id].calls[c] == VenueCall(op, seen)
    }

    ghost predicate Idle(c: nat, id: string)
      reads this
    {
      id in states ==> c !in states[id].calls
    }

    constructor (ghost alone: bool, rows: map<string, Venue>)
      requires forall id <- rows.Keys :: rows[id].details == NO_DETAILS
      ensures Valid() && this.alone == alone && created == rows && venues == rows
      ensures events == map id <- rows.Keys :: []
    {
      this.alone, created, venues := alone, rows, rows;
      events := map id <- rows.Keys :: [];
      states := map id <- rows.Keys :: VenueStart(rows[id]);
    }

    /** Call c of op has been begun since these events. */
    ghost predicate Begun(before: map<string, seq<VenueEvent>>, c: nat, id: string, op: VenueOp)
      reads this
    {
      id in before && id in events && before[id] + [VenueBegin(c, op)] <= events[id]
    }

    /** Whatever other calls do meanwhile. */
    method Elsewhere(ghost c: nat, id: string, ghost op: VenueOp, ghost seen: Venue,
                     ghost before: map<string, seq<VenueEvent>>)
      requires Valid() && id in venues && Pending(c, id, op, seen) && Begun(before, c, id, op)
      modifies this
      ensures Valid() && id in venues && Pending(c, id, op, seen) && Begun(before, c, id, op)
      ensures alone ==> unchanged(this)
    {
    }

    /** The same before the call has read anything. */
    method FindAgain(ghost c: nat, id: string)
      requires Valid() && id in venues && Idle(c, id)
      modifies this
      ensures Valid() && id in venues && Idle(c, id) && old(events)[id] <= events[id]
      ensures alone ==> unchanged(this)
    {
    }

    ghost method Read(c: nat, id: string, op: VenueOp, now: nat)
      requires Valid() && id in venues && Idle(c, id)
      modifies this`events, this`states
      ensures Valid() && Begun(old(events), c, id, op)
      ensures Refused(old(events), venues, c, id, op, VenueRefusal(venues[id], op))
      ensures VenueRefusal(venues[id], op).None? ==> Pending(c, id, op, venues[id])
      ensures VenueRefusal(venues[id], op).Some? ==> VenueDid(venues, venues, id, op, now, VenueRefusal(venues[id], op))
    {
      if VenueRefusal(venues[id], op).Some? {
        RefusedVenue(venues, id, op, now);
      }
      assert RowOk(id);
      VenueReachesNext(created[id], events[id], states[id], VenueBegin(c, op));
      ghost var next := VenueApply(states[id], VenueBegin(c, op));
      assert next.row == states[id].row;
      events := events[id := events[id] + [VenueBegin(c, op)]];
      states := states[id := next];
    }

    /** The update of call c. */
    method Write(ghost c: nat, id: string, ghost op: VenueOp, ghost seen: Venue, ghost at: nat, row: Venue,
                 ghost before: map<string, seq<VenueEvent>>,
                 ghost rows: map<string, Venue>)
      returns (ghost error: Option<OnboardingError>, ghost met: VenueState)
      requires Valid() && id in venues && Pending(c, id, op, seen) && Begun(before, c, id, op)
      requires row == VenueWrite(venues[id], seen, op, at)
      requires id in rows && rows[id] == seen && VenueRefusal(seen, op).None? && (alone ==> venues == rows)
      modifies this
      ensures Valid() && error == VenueThrows(old(venues)[id], op)
      ensures Called(before, rows, met, c, id, op, at, error)
      ensures alone ==> VenueDid(rows, venues, id, op, at, error)
    {
      assert RowOk(id);
      met, error := states[id], VenueThrows(venues[id], op);
      VenueReachesNext(created[id], events[id], met, VenueFinish(c, at));
      ghost var next := VenueApply(met, VenueFinish(c, at));
      assert next.row == row;
      ghost var earlier := events[id];
      venues, events, states := venues[id := row], events[id := earlier + [VenueFinish(c, at)]], states[id := next];
      assert events[id][..|events[id]| - 1] == earlier;
      if alone {
        AloneVenue(rows, venues, id, op, at, error);
      }
    }

    /** The call read this row and refused it, writing nothing. */
    ghost predicate Refused(before: map<string, seq<VenueEvent>>, rows: map<string, Venue>, c: nat, id: string,
                            op: VenueOp, error: Option<OnboardingError>)
      reads this
    {
      && id in rows && error == VenueRefusal(rows[id], op) && venues == rows
      && id in before && events == before[id := before[id] + [VenueBegin(c, op)]]
    }

    /** The call's write is the last event: it met the state met, with the row the call had read still in its hands. */
    ghost predicate Wrote(before: map<string, seq<VenueEvent>>, met: VenueState, seen: Venue, c: nat, id: string,
                          op: VenueOp, at: nat)
      reads this
    {
      && id in before && id in events && id in states && id in created && |events[id]| > 0
      && var earlier := events[id][..|events[id]| - 1];
         && before[id] + [VenueBegin(c, op)] <= earlier && events[id] == earlier + [VenueFinish(c, at)]
         && c in met.calls && met.calls[c] == VenueCall(op, seen) && VenueReached(created[id], earlier, met)
         && states[id] == VenueApply(met, VenueFinish(c, at))
    }

    /** A call: unknown, refused on the row it read, or written. */
    ghost predicate Called(before: map<string, seq<VenueEvent>>, rows: map<string, Venue>, met: VenueState, c: nat,
                           id: string, op: VenueOp, at: nat, error: Option<OnboardingError>)
      reads this
    {
      if id !in rows then error == Some(NotFound) && venues == rows && events == before
      else if VenueRefusal(rows[id], op).Some? then Refused(before, rows, c, id, op, error)
      else error == VenueThrows(met.row, op) && Wrote(before, met, rows[id], c, id, op, at)
    }

    /** The row is found again once the bank list has answered: the call reads it in the state found, with events
        heard. */
    method SubmitBankDetails(ghost c: nat, id: string, accountNumber: string, bank: Option<Bank>, now: nat)
      returns (error: Option<OnboardingError>, ghost met: VenueState, ghost found: map<string, Venue>,
               ghost heard: map<string, seq<VenueEvent>>)
      requires Valid() && Idle(c, id)
      modifies this
      ensures Valid()
      ensures id !in old(venues) ==> error == Some(NotFound) && venues == old(venues) && events == old(events)
      ensures id in old(venues) && bank.None? ==>
                error == Some(UnknownBank) && venues == old(venues) && events == old(events)
      ensures id in old(venues) && bank.Some? ==>
                && id in old(events) && id in heard && old(events)[id] <= heard[id] && id in found
                && Called(heard, found, met, c, id, VenueSubmitOp(accountNumber, bank), now, error)
      ensures alone ==> VenueDid(old(venues), venues, id, VenueSubmitOp(accountNumber, bank), now, error)
    {
      met, found, heard := VenueState(NOWHERE, NO_HISTORY, map[]), venues, events;
      if id !in venues { return Some(NotFound), met, found, heard; }
      if bank.None? { return Some(UnknownBank), met, found, heard; }
      FindAgain(c, id);
      found, heard := venues, events;
      var seen := venues[id];
      ghost var op := VenueSubmitOp(accountNumber, bank);
      ghost var before, rows := events, venues;
      Read(c, id, op, now);
      Elsewhere(c, id, op, seen, before);
      var row := venues[id];
      var changed := seen.details.accountNumber != Some(accountNumber)
          || seen.details.bankCode != Some(bank.value.code);
      var details := row.details.(bankName := Some(bank.value.name), bankCode := Some(bank.value.code),
                                  accountNumber := Some(accountNumber));
      if changed {
        details := details.(resolvedAccountName := None, accountResolvedAt := None, accountConfirmedAt := None);
      }
      ghost var thrown;
      thrown, met := Write(c, id, op, seen, now, row.(details := details), before, rows);
      error := None;
    }

    method ResolveAccount(ghost c: nat, id: string, answer: Resolution, now: nat)
      returns (error: Option<OnboardingError>, ghost met: VenueState)
      requires Valid() && Idle(c, id)
      modifies this
      ensures Valid() && Called(old(events), old(venues), met, c, id, VenueResolveOp(answer), now, error)
      ensures alone ==> VenueDid(old(venues), venues, id, VenueResolveOp(answer), now, error)
    {
      met := VenueState(NOWHERE, NO_HISTORY, map[]);
      if id !in venues { return Some(NotFound), met; }
      var seen := venues[id];
      ghost var op := VenueResolveOp(answer);
      ghost var before, rows := events, venues;
      Read(c, id, op, now);
      if !Present(seen.details.accountNumber) || !Present(seen.details.bankCode) { return Some(DetailsMissing), met; }
      if answer.Rejected? { return Some(Unresolvable(answer.message)), met; }
      if answer.Broken? { return Some(ProviderFailed), met; }
      Elsewhere(c, id, op, seen, before);
      var row := venues[id];
      var details := row.details.(resolvedAccountName := Some(answer.name), accountResolvedAt := Some(now),
                                  accountConfirmedAt := None);
      ghost var thrown;
      thrown, met := Write(c, id, op, seen, now, row.(details := details), before, rows);
      error := None;
    }

    method ConfirmAccount(ghost c: nat, id: string, confirmedName: string, now: nat)
      returns (error: Option<OnboardingError>, ghost met: VenueState)
      requires Valid() && Idle(c, id)
      modifies this
      ensures Valid() && Called(old(events), old(venues), met, c, id, VenueConfirmOp(confirmedName), now, error)
      ensures alone ==> VenueDid(old(venues), venues, id, VenueConfirmOp(confirmedName), now, error)
    {
      met := VenueState(NOWHERE, NO_HISTORY, map[]);
      if id !in venues { return Some(NotFound), met; }
      var seen := venues[id];
      ghost var op := VenueConfirmOp(confirmedName);
      ghost var before, rows := events, venues;
      Read(c, id, op, now);
      if !Present(seen.details.resolvedAccountName) { return Some(NotResolved), met; }
      if NormalizeName(confirmedName) != NormalizeName(seen.details.resolvedAccountName.value) {
        return Some(NameMismatch), met;
      }
      Elsewhere(c, id, op, seen, before);
      var row := venues[id];
      var written;
      written, error := Confirmed(row, seen, confirmedName, now);
      ghost var thrown;
      thrown, met := Write(c, id, op, seen, now, written, before, rows);
    }

    method Confirmed(row: Venue, ghost seen: Venue, confirmedName: string, now: nat)
      returns (written: Venue, error: Option<OnboardingError>)
      ensures written == VenueWrite(row, seen, VenueConfirmOp(confirmedName), now)
      ensures error == VenueThrows(row, VenueConfirmOp(confirmedName))
    {
      if row.details.resolvedAccountName.None? {
        return row, Some(ConstraintViolated);
      }
      written := row.(details := row.details.(accountConfirmedAt := Some(now)));
      error := None;
    }
  }
}
