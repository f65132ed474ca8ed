/** What the split-rule tables satisfy after any sequence of proposals, overrides and answers. */
module SplitRuleHistory {
  import opened Wrappers
  import opened Ledger
  import opened SplitRules

  // ---------------------------------------------------------------- what always holds

  /** Which columns are set, in each status. */
  predicate ShapeOk(rule: SplitRule, clock: nat) {
    && ValidSplit(rule.split)
    && (rule.token.Some? <==> rule.status == PENDING_ENTERTAINER_APPROVAL)
    && (rule.origin == VENUE_PROPOSAL <==> rule.entertainerId.Some?)
    && (rule.origin == ADMIN_OVERRIDE ==> rule.status == ACTIVE || rule.status == SUPERSEDED)
    && (rule.effectiveFrom.Some? <==> rule.status == ACTIVE || rule.status == SUPERSEDED)
    && (rule.effectiveTo.Some? <==> rule.status == SUPERSEDED)
    && (rule.effectiveFrom.Some? ==> rule.effectiveFrom.value <= clock)
    && (rule.effectiveTo.Some? ==> rule.effectiveFrom.value <= rule.effectiveTo.value <= clock)
    && (rule.respondedAt.Some? <==>
          rule.status == REJECTED || (rule.origin == VENUE_PROPOSAL && rule.effectiveFrom.Some?))
  }

  /** The complete audit trail of a rule, which its row determines. */
  function Trail(rule: SplitRule, r: nat): seq<AuditEvent> {
    (if rule.origin == VENUE_PROPOSAL then [AuditEvent(r, PROPOSED, VenueAdmin(rule.proposedByUserId))]
     else [AuditEvent(r, OVERRIDDEN, PlatformAdmin(rule.proposedByUserId))])
    + (if rule.respondedAt.None? then []
       else [AuditEvent(r, if rule.status == REJECTED then DECLINED else ACCEPTED, ByEntertainer(rule.entertainerId))])
    + if rule.status == SUPERSEDED then [AuditEvent(r, CLOSED, System)] else []
  }

  function EventsOf(audit: seq<AuditEvent>, r: nat): seq<AuditEvent> {
    if |audit| == 0 then []
    else EventsOf(audit[..|audit| - 1], r) + if audit[|audit| - 1].ruleId == r then [audit[|audit| - 1]] else []
  }

  predicate AtMostOne(rules: seq<SplitRule>, status: RuleStatus) {
    forall i, j | 0 <= i < j < |rules| && rules[i].venueId == rules[j].venueId ::
      rules[i].status != status || rules[j].status != status
  }

  /** t lies in [effectiveFrom, effectiveTo). */
  predicate InForce(rule: SplitRule, t: nat) {
    rule.effectiveFrom.Some? && rule.effectiveFrom.value <= t && (rule.effectiveTo.None? || t < rule.effectiveTo.value)
  }

  predicate InForceAt(rules: seq<SplitRule>, venueId: string, t: nat, r: nat) {
    r < |rules| && rules[r].venueId == venueId && InForce(rules[r], t)
  }

  predicate StartedBy(rules: seq<SplitRule>, venueId: string, t: nat, r: nat) {
    r < |rules| && rules[r].venueId == venueId && rules[r].effectiveFrom.Some? && rules[r].effectiveFrom.value <= t
  }

  /** The intervals do not overlap, and cover everything from the first activation on. */
  ghost predicate Tiles(rules: seq<SplitRule>, venueId: string) {
    && (forall t: nat, i, j :: InForceAt(rules, venueId, t, i) && InForceAt(rules, venueId, t, j) ==> i == j)
    && (forall t: nat, i :: StartedBy(rules, venueId, t, i) ==> exists r :: InForceAt(rules, venueId, t, r))
  }

  ghost predicate RowsOk(g: Governance, clock: nat) {
    && (forall r | 0 <= r < |g.rules| :: ShapeOk(g.rules[r], clock))
    && AtMostOne(g.rules, ACTIVE) && AtMostOne(g.rules, PENDING_ENTERTAINER_APPROVAL)
  }

  ghost predicate TrailsOk(g: Governance) {
    && (forall r | 0 <= r < |g.rules| :: EventsOf(g.audit, r) == Trail(g.rules[r], r))
    && (forall e <- g.audit :: e.ruleId < |g.rules|)
  }

  // ---------------------------------------------------------------- audit trails

  lemma {:induction false} EventsConcat(a: seq<AuditEvent>, b: seq<AuditEvent>, r: nat)
    ensures EventsOf(a + b, r) == EventsOf(a, r) + EventsOf(b, r)
  {
    if |b| == 0 {
      assert a + b == a;
    } else {
      assert (a + b)[..|a + b| - 1] == a + b[..|b| - 1];
      EventsConcat(a, b[..|b| - 1], r);
    }
  }

  lemma {:induction false} OneEvent(audit: seq<AuditEvent>, e: AuditEvent, r: nat)
    ensures EventsOf(audit + [e], r) == EventsOf(audit, r) + if e.ruleId == r then [e] else []
  {
    assert (audit + [e])[..|audit + [e]| - 1] == audit;
  }

  lemma {:induction false} NoEvents(audit: seq<AuditEvent>, r: nat)
    requires forall e <- audit :: e.ruleId != r
    ensures EventsOf(audit, r) == []
  {
    if |audit| > 0 {
      assert audit[|audit| - 1] in audit;
      NoEvents(audit[..|audit| - 1], r);
    }
  }

  /** Each outgoing rule is closed in the audit exactly once. */
  lemma {:induction false} ClosedOnce(rules: seq<SplitRule>, venueId: string, except: Option<nat>, n: nat, r: nat)
    requires n <= |rules|
    ensures EventsOf(ClosingEvents(Outgoing(rules, venueId, except, n)), r)
            == if r < n && IsOutgoing(rules, venueId, except, r) then [AuditEvent(r, CLOSED, System)] else []
  {
    if n > 0 {
      ClosedOnce(rules, venueId, except, n - 1, r);
      var ids := Outgoing(rules, venueId, except, n - 1);
      if IsOutgoing(rules, venueId, except, n - 1) {
        assert ClosingEvents(ids + [n - 1]) == ClosingEvents(ids) + [AuditEvent(n - 1, CLOSED, System)];
        OneEvent(ClosingEvents(ids), AuditEvent(n - 1, CLOSED, System), r);
      } else {
        assert Outgoing(rules, venueId, except, n) == ids;
      }
    }
  }

  /** What closing does to one rule and its trail. */
  lemma CloseOutAt(g: Governance, venueId: string, at: nat, except: Option<nat>, r: nat)
    requires r < |g.rules|
    ensures var h, out := CloseOut(g, venueId, at, except), IsOutgoing(g.rules, venueId, except, r);
            && h.rules[r] == (if out then g.rules[r].(status := SUPERSEDED, effectiveTo := Some(at)) else g.rules[r])
            && EventsOf(h.audit, r) == EventsOf(g.audit, r) + if out then [AuditEvent(r, CLOSED, System)] else []
  {
    var ids := Outgoing(g.rules, venueId, except, |g.rules|);
    EventsConcat(g.audit, ClosingEvents(ids), r);
    ClosedOnce(g.rules, venueId, except, |g.rules|, r);
    OutgoingMembers(g.rules, venueId, except, |g.rules|, r);
  }

  // ---------------------------------------------------------------- propose

  lemma ProposeKeepsRows(g: Governance, dto: ProposalDto, context: Context, token: nat, userId: string, clock: nat,
                         at: nat)
    requires RowsOk(g, clock) && clock <= at && ProposalError(dto, context).None?
    ensures RowsOk(ProposeTx(g, dto, context.platformBps, token, userId), at)
  {
  }

  lemma ProposeKeepsTrails(g: Governance, dto: ProposalDto, platformBps: int, token: nat, userId: string)
    requires TrailsOk(g)
    ensures TrailsOk(ProposeTx(g, dto, platformBps, token, userId))
  {
    var h := ProposeTx(g, dto, platformBps, token, userId);
    forall r | 0 <= r < |h.rules| ensures EventsOf(h.audit, r) == Trail(h.rules[r], r) {
      OneEvent(g.audit, AuditEvent(|g.rules|, PROPOSED, VenueAdmin(userId)), r);
      if r == |g.rules| {
        NoEvents(g.audit, r);
      }
    }
  }

  lemma ProposeKeepsTiling(g: Governance, dto: ProposalDto, platformBps: int, token: nat, userId: string,
                           venueId: string)
    requires Tiles(g.rules, venueId)
    ensures Tiles(ProposeTx(g, dto, platformBps, token, userId).rules, venueId)
  {
    var h := ProposeTx(g, dto, platformBps, token, userId);
    forall t: nat, r ensures InForceAt(h.rules, venueId, t, r) == InForceAt(g.rules, venueId, t, r) {
    }
    forall t: nat, i | StartedBy(h.rules, venueId, t, i) ensures exists r :: InForceAt(h.rules, venueId, t, r) {
      assert StartedBy(g.rules, venueId, t, i);
      var r :| InForceAt(g.rules, venueId, t, r);
      assert InForceAt(h.rules, venueId, t, r);
    }
  }

  // ---------------------------------------------------------------- activation

  /** Rule q of the venue comes into force at this instant, and the venue's active rule ends at the same instant. */
  ghost predicate Activates(before: seq<SplitRule>, after: seq<SplitRule>, venueId: string, q: nat, at: nat) {
    && |before| <= |after| <= |before| + 1 && q < |after| && (|after| > |before| ==> q == |before|)
    && after[q].venueId == venueId && after[q].status == ACTIVE
    && after[q].effectiveFrom == Some(at) && after[q].effectiveTo.None?
    && (q < |before| ==> before[q].effectiveFrom.None? && before[q].venueId == venueId)
    && forall r | 0 <= r < |before| && r != q ::
         after[r] == if before[r].venueId == venueId && before[r].status == ACTIVE
                     then before[r].(status := SUPERSEDED, effectiveTo := Some(at)) else before[r]
  }

  lemma ActivationAt(before: seq<SplitRule>, after: seq<SplitRule>, venueId: string, q: nat, at: nat, t: nat, r: nat)
    requires forall i | 0 <= i < |before| :: ShapeOk(before[i], at)
    requires Activates(before, after, venueId, q, at)
    ensures InForceAt(after, venueId, t, r) <==> if t < at then InForceAt(before, venueId, t, r) else r == q
  {
    if r < |before| {
      assert ShapeOk(before[r], at);
    }
  }

  lemma ActivationKeepsTiling(before: seq<SplitRule>, after: seq<SplitRule>, venueId: string, q: nat, at: nat)
    requires forall i | 0 <= i < |before| :: ShapeOk(before[i], at)
    requires Activates(before, after, venueId, q, at) && Tiles(before, venueId)
    ensures Tiles(after, venueId)
  {
    forall t: nat, r: nat
      ensures InForceAt(after, venueId, t, r) <==> if t < at then InForceAt(before, venueId, t, r) else r == q
    {
      ActivationAt(before, after, venueId, q, at, t, r);
    }
    forall t: nat, i | StartedBy(after, venueId, t, i) ensures exists r :: InForceAt(after, venueId, t, r) {
      if t < at {
        assert StartedBy(before, venueId, t, i);
        var r :| InForceAt(before, venueId, t, r);
        assert InForceAt(after, venueId, t, r);
      } else {
        assert InForceAt(after, venueId, t, q);
      }
    }
  }

  lemma ActivationSparesOthers(before: seq<SplitRule>, after: seq<SplitRule>, venueId: string, q: nat, at: nat,
                               other: string)
    requires Activates(before, after, venueId, q, at) && other != venueId && Tiles(before, other)
    ensures Tiles(after, other)
  {
    forall t: nat, r: nat ensures InForceAt(after, other, t, r) == InForceAt(before, other, t, r) {
    }
    forall t: nat, i | StartedBy(after, other, t, i) ensures exists r :: InForceAt(after, other, t, r) {
      assert StartedBy(before, other, t, i);
      var r :| InForceAt(before, other, t, r);
      assert InForceAt(after, other, t, r);
    }
  }

  lemma OverrideActivates(g: Governance, venueId: string, split: Split, adminId: string, at: nat)
    requires forall i | 0 <= i < |g.rules| :: ShapeOk(g.rules[i], at)
    ensures Activates(g.rules, OverrideTx(g, venueId, split, adminId, at).rules, venueId, |g.rules|, at)
  {
    forall r | 0 <= r < |g.rules|
      ensures IsOutgoing(g.rules, venueId, None, r) == (g.rules[r].venueId == venueId && g.rules[r].status == ACTIVE)
    {
      assert ShapeOk(g.rules[r], at);
    }
    forall r | 0 <= r < |g.rules|
      ensures CloseOut(g, venueId, at, None).rules[r]
              == (if g.rules[r].venueId == venueId && g.rules[r].status == ACTIVE
                  then g.rules[r].(status := SUPERSEDED, effectiveTo := Some(at)) else g.rules[r])
    {
      CloseOutAt(g, venueId, at, None, r);
    }
  }

  lemma AnswerActivates(g: Governance, ruleId: nat, at: nat)
    requires ruleId < |g.rules| && g.rules[ruleId].status == PENDING_ENTERTAINER_APPROVAL
    requires forall i | 0 <= i < |g.rules| :: ShapeOk(g.rules[i], at)
    ensures Activates(g.rules, AnswerTx(g, ruleId, true, at).rules, g.rules[ruleId].venueId, ruleId, at)
  {
    assert ShapeOk(g.rules[ruleId], at);
    var venueId, claimed := g.rules[ruleId].venueId,
        g.(rules := g.rules[ruleId := Answered(g.rules[ruleId], true, at)]);
    forall r | 0 <= r < |g.rules|
      ensures CloseOut(claimed, venueId, at, Some(ruleId)).rules[r]
              == (if r != ruleId && g.rules[r].venueId == venueId && g.rules[r].status == ACTIVE
                  then g.rules[r].(status := SUPERSEDED, effectiveTo := Some(at)) else claimed.rules[r])
    {
      CloseOutAt(claimed, venueId, at, Some(ruleId), r);
      assert ShapeOk(g.rules[r], at);
    }
  }

  lemma ActivationKeepsRows(before: seq<SplitRule>, after: seq<SplitRule>, venueId: string, q: nat, at: nat)
    requires forall i | 0 <= i < |before| :: ShapeOk(before[i], at)
    requires Activates(before, after, venueId, q, at) && ShapeOk(after[q], at)
    requires AtMostOne(before, ACTIVE) && AtMostOne(before, PENDING_ENTERTAINER_APPROVAL)
    ensures forall i | 0 <= i < |after| :: ShapeOk(after[i], at)
    ensures AtMostOne(after, ACTIVE) && AtMostOne(after, PENDING_ENTERTAINER_APPROVAL)
  {
    forall i | 0 <= i < |after| ensures ShapeOk(after[i], at) {
      if i != q {
        assert ShapeOk(before[i], at);
      }
    }
  }

  /** A closed rule's trail grows by its closing event. */
  lemma TrailOfClosed(rule: SplitRule, r: nat, at: nat)
    requires ShapeOk(rule, at) && rule.status == ACTIVE
    ensures Trail(rule.(status := SUPERSEDED, effectiveTo := Some(at)), r) == Trail(rule, r)
            + [AuditEvent(r, CLOSED, System)]
  {
  }

  lemma ClosingEventsRefer(rules: seq<SplitRule>, venueId: string, except: Option<nat>)
    ensures forall e <- ClosingEvents(Outgoing(rules, venueId, except, |rules|)) ::
              e.ruleId < |rules| && IsOutgoing(rules, venueId, except, e.ruleId)
  {
    var ids := Outgoing(rules, venueId, except, |rules|);
    forall i | 0 <= i < |ids| ensures ids[i] < |rules| && IsOutgoing(rules, venueId, except, ids[i]) {
      OutgoingMembers(rules, venueId, except, |rules|, ids[i]);
    }
  }

  lemma OverrideKeepsTrail(g: Governance, venueId: string, split: Split, adminId: string, at: nat, r: nat)
    requires r < |g.rules| && EventsOf(g.audit, r) == Trail(g.rules[r], r) && ShapeOk(g.rules[r], at)
    ensures var h := OverrideTx(g, venueId, split, adminId, at); EventsOf(h.audit, r) == Trail(h.rules[r], r)
  {
    var closed := CloseOut(g, venueId, at, None);
    OneEvent(closed.audit, AuditEvent(|g.rules|, OVERRIDDEN, PlatformAdmin(adminId)), r);
    CloseOutAt(g, venueId, at, None, r);
    if IsOutgoing(g.rules, venueId, None, r) {
      TrailOfClosed(g.rules[r], r, at);
    }
  }

  lemma OverrideStartsTrail(g: Governance, venueId: string, split: Split, adminId: string, at: nat)
    requires forall e <- g.audit :: e.ruleId < |g.rules|
    ensures var h := OverrideTx(g, venueId, split, adminId, at);
            && EventsOf(h.audit, |g.rules|) == [AuditEvent(|g.rules|, OVERRIDDEN, PlatformAdmin(adminId))]
            && forall e <- h.audit :: e.ruleId <= |g.rules|
  {
    var closings := ClosingEvents(Outgoing(g.rules, venueId, None, |g.rules|));
    ClosingEventsRefer(g.rules, venueId, None);
    NoEvents(g.audit + closings, |g.rules|);
    OneEvent(g.audit + closings, AuditEvent(|g.rules|, OVERRIDDEN, PlatformAdmin(adminId)), |g.rules|);
  }

  lemma OverrideKeepsTrails(g: Governance, venueId: string, split: Split, adminId: string, at: nat)
    requires TrailsOk(g) && forall i | 0 <= i < |g.rules| :: ShapeOk(g.rules[i], at)
    ensures TrailsOk(OverrideTx(g, venueId, split, adminId, at))
  {
    var h := OverrideTx(g, venueId, split, adminId, at);
    OverrideStartsTrail(g, venueId, split, adminId, at);
    forall r | 0 <= r < |h.rules| ensures EventsOf(h.audit, r) == Trail(h.rules[r], r) {
      if r < |g.rules| {
        OverrideKeepsTrail(g, venueId, split, adminId, at, r);
      }
    }
  }

  lemma DeclineKeepsTrail(g: Governance, ruleId: nat, at: nat, r: nat)
    requires r < |g.rules| && EventsOf(g.audit, r) == Trail(g.rules[r], r) && ShapeOk(g.rules[r], at)
    requires ruleId < |g.rules| && g.rules[ruleId].status == PENDING_ENTERTAINER_APPROVAL
    ensures var h := AnswerTx(g, ruleId, false, at); EventsOf(h.audit, r) == Trail(h.rules[r], r)
  {
    OneEvent(g.audit, AuditEvent(ruleId, DECLINED, ByEntertainer(g.rules[ruleId].entertainerId)), r);
  }

  lemma AcceptKeepsTrail(g: Governance, ruleId: nat, at: nat, r: nat)
    requires r < |g.rules| && EventsOf(g.audit, r) == Trail(g.rules[r], r) && ShapeOk(g.rules[r], at)
    requires ruleId < |g.rules| && g.rules[ruleId].status == PENDING_ENTERTAINER_APPROVAL
    ensures var h := AnswerTx(g, ruleId, true, at); EventsOf(h.audit, r) == Trail(h.rules[r], r)
  {
    var rule := g.rules[ruleId];
    var claimed := g.(rules := g.rules[ruleId := Answered(rule, true, at)]);
    var closed := CloseOut(claimed, rule.venueId, at, Some(ruleId));
    OneEvent(closed.audit, AuditEvent(ruleId, ACCEPTED, ByEntertainer(rule.entertainerId)), r);
    CloseOutAt(claimed, rule.venueId, at, Some(ruleId), r);
    if IsOutgoing(claimed.rules, rule.venueId, Some(ruleId), r) {
      TrailOfClosed(g.rules[r], r, at);
    }
  }

  lemma AnswerKeepsTrails(g: Governance, ruleId: nat, accept: bool, at: nat)
    requires TrailsOk(g) && forall i | 0 <= i < |g.rules| :: ShapeOk(g.rules[i], at)
    requires ruleId < |g.rules| && g.rules[ruleId].status == PENDING_ENTERTAINER_APPROVAL
    ensures TrailsOk(AnswerTx(g, ruleId, accept, at))
  {
    var h := AnswerTx(g, ruleId, accept, at);
    var claimed := g.rules[ruleId := Answered(g.rules[ruleId], accept, at)];
    ClosingEventsRefer(claimed, g.rules[ruleId].venueId, Some(ruleId));
    forall r | 0 <= r < |g.rules| ensures EventsOf(h.audit, r) == Trail(h.rules[r], r) {
      if accept {
        AcceptKeepsTrail(g, ruleId, at, r);
      } else {
        DeclineKeepsTrail(g, ruleId, at, r);
      }
    }
  }

  // ---------------------------------------------------------------- over whole runs

  ghost predicate GovernanceOk(g: Governance, clock: nat) {
    RowsOk(g, clock) && TrailsOk(g) && forall venueId :: Tiles(g.rules, venueId)
  }

  lemma OverrideKeepsAll(g: Governance, venueId: string, split: Split, adminId: string, clock: nat, at: nat)
    requires GovernanceOk(g, clock) && clock <= at && ValidSplit(split)
    ensures GovernanceOk(OverrideTx(g, venueId, split, adminId, at), at)
  {
    Later(g, clock, at);
    var h := OverrideTx(g, venueId, split, adminId, at);
    OverrideKeepsTrails(g, venueId, split, adminId, at);
    OverrideActivates(g, venueId, split, adminId, at);
    ActivationKeepsRows(g.rules, h.rules, venueId, |g.rules|, at);
    ActivationKeepsTiling(g.rules, h.rules, venueId, |g.rules|, at);
    forall other | other != venueId ensures Tiles(h.rules, other) {
      ActivationSparesOthers(g.rules, h.rules, venueId, |g.rules|, at, other);
    }
  }

  lemma AcceptKeepsAll(g: Governance, ruleId: nat, clock: nat, at: nat)
    requires GovernanceOk(g, clock) && clock <= at
    requires ruleId < |g.rules| && g.rules[ruleId].status == PENDING_ENTERTAINER_APPROVAL
    ensures GovernanceOk(AnswerTx(g, ruleId, true, at), at)
  {
    Later(g, clock, at);
    var venueId, h := g.rules[ruleId].venueId, AnswerTx(g, ruleId, true, at);
    AnswerKeepsTrails(g, ruleId, true, at);
    AnswerActivates(g, ruleId, at);
    AcceptedShape(g, ruleId, at);
    ActivationKeepsRows(g.rules, h.rules, venueId, ruleId, at);
    ActivationKeepsTiling(g.rules, h.rules, venueId, ruleId, at);
    forall other | other != venueId ensures Tiles(h.rules, other) {
      ActivationSparesOthers(g.rules, h.rules, venueId, ruleId, at, other);
    }
  }

  lemma AcceptedShape(g: Governance, ruleId: nat, at: nat)
    requires ruleId < |g.rules| && g.rules[ruleId].status == PENDING_ENTERTAINER_APPROVAL
             && ShapeOk(g.rules[ruleId], at)
    ensures AnswerTx(g, ruleId, true, at).rules[ruleId] == Answered(g.rules[ruleId], true, at)
    ensures ShapeOk(AnswerTx(g, ruleId, true, at).rules[ruleId], at)
  {
    var claimed := g.(rules := g.rules[ruleId := Answered(g.rules[ruleId], true, at)]);
    CloseOutAt(claimed, g.rules[ruleId].venueId, at, Some(ruleId), ruleId);
  }

  lemma Later(g: Governance, clock: nat, at: nat)
    requires RowsOk(g, clock) && clock <= at
    ensures RowsOk(g, at)
  {
  }

  lemma RejectKeepsAll(g: Governance, ruleId: nat, clock: nat, at: nat)
    requires GovernanceOk(g, clock) && clock <= at
    requires ruleId < |g.rules| && g.rules[ruleId].status == PENDING_ENTERTAINER_APPROVAL
    ensures GovernanceOk(AnswerTx(g, ruleId, false, at), at)
  {
    Later(g, clock, at);
    AnswerKeepsTrails(g, ruleId, false, at);
    var h := AnswerTx(g, ruleId, false, at);
    forall venueId ensures Tiles(h.rules, venueId) {
      SameDates(g.rules, h.rules, venueId);
    }
  }

  lemma SameDates(before: seq<SplitRule>, after: seq<SplitRule>, venueId: string)
    requires |before| == |after| && Tiles(before, venueId)
    requires forall r | 0 <= r < |before| :: before[r].venueId == after[r].venueId
               && before[r].effectiveFrom == after[r].effectiveFrom && before[r].effectiveTo == after[r].effectiveTo
    ensures Tiles(after, venueId)
  {
    forall t: nat, r: nat ensures InForceAt(after, venueId, t, r) == InForceAt(before, venueId, t, r) {
    }
    forall t: nat, i | StartedBy(after, venueId, t, i) ensures exists r :: InForceAt(after, venueId, t, r) {
      assert StartedBy(before, venueId, t, i);
      var r :| InForceAt(before, venueId, t, r);
      assert InForceAt(after, venueId, t, r);
    }
  }

  lemma ProposeKeepsAll(g: Governance, dto: ProposalDto, context: Context, token: nat, userId: string, clock: nat,
                        at: nat)
    requires GovernanceOk(g, clock) && clock <= at && ProposalError(dto, context).None?
    ensures GovernanceOk(ProposeTx(g, dto, context.platformBps, token, userId), at)
  {
    ProposeKeepsRows(g, dto, context, token, userId, clock, at);
    ProposeKeepsTrails(g, dto, context.platformBps, token, userId);
    forall venueId ensures Tiles(ProposeTx(g, dto, context.platformBps, token, userId).rules, venueId) {
      ProposeKeepsTiling(g, dto, context.platformBps, token, userId, venueId);
    }
  }

  /** The history tiles time, the trails are complete and the rows are well formed, after any sequence of operations. */
  lemma {:induction false} RunIsOk(ops: seq<Timed>)
    requires Monotone(ops)
    ensures GovernanceOk(RunRules(ops), Clock(ops))
  {
    if |ops| > 0 {
      var shorter, last := ops[..|ops| - 1], ops[|ops| - 1];
      RunIsOk(shorter);
      var g, clock := RunRules(shorter), Clock(shorter);
      assert clock <= last.at;
      Later(g, clock, last.at);
      match last.op
      case Propose(dto, context, token, userId) =>
        if ProposalError(dto, context).None? {
          ProposeKeepsAll(g, dto, context, token, userId, clock, last.at);
        }
      case Override(venueId, split, adminId) =>
        if ValidSplit(split) {
          OverrideKeepsAll(g, venueId, split, adminId, clock, last.at);
        }
      case Respond(ruleId, token, accept, seen) =>
        if ruleId < |g.rules| && g.rules[ruleId].status == PENDING_ENTERTAINER_APPROVAL {
          if accept {
            AcceptKeepsAll(g, ruleId, clock, last.at);
          } else {
            RejectKeepsAll(g, ruleId, clock, last.at);
          }
        }
    }
  }

  /** From the first activation on, every instant has exactly one rule in force. */
  lemma HistoryTilesTime(ops: seq<Timed>, venueId: string, t: nat, started: nat)
    requires Monotone(ops) && StartedBy(RunRules(ops).rules, venueId, t, started)
    ensures exists r :: InForceAt(RunRules(ops).rules, venueId, t, r)
              && forall q :: InForceAt(RunRules(ops).rules, venueId, t, q) ==> q == r
  {
    RunIsOk(ops);
    var rules := RunRules(ops).rules;
    assert Tiles(rules, venueId);
    var r :| InForceAt(rules, venueId, t, r);
    assert forall q :: InForceAt(rules, venueId, t, q) ==> q == r;
  }

  /** From now on the rule in force is the one payments are quoted by, and there is at most one. */
  lemma {:induction false} QuotedRuleIsTheOneInForce(ops: seq<Timed>, venueId: string, t: nat, r: nat)
    requires Monotone(ops) && Clock(ops) <= t
    ensures var rules := RunRules(ops).rules;
            && (IsActive(rules, venueId, r) <==> InForceAt(rules, venueId, t, r))
            && (IsActive(rules, venueId, r) <==> IsLatest(rules, venueId, r))
            && (IsActive(rules, venueId, r) ==> forall q :: IsActive(rules, venueId, q) ==> q == r)
  {
    RunIsOk(ops);
    var rules := RunRules(ops).rules;
    if r < |rules| {
      ActiveIsInForce(rules[r], Clock(ops), t);
      if IsActive(rules, venueId, r) {
        ActiveIsOnlyOne(rules, venueId, r);
      }
    }
  }

  lemma ActiveIsInForce(rule: SplitRule, clock: nat, t: nat)
    requires ShapeOk(rule, clock) && clock <= t
    ensures rule.status == ACTIVE && rule.effectiveTo.None? <==> InForce(rule, t)
  {
  }

  lemma ActiveIsOnlyOne(rules: seq<SplitRule>, venueId: string, r: nat)
    requires AtMostOne(rules, ACTIVE) && IsActive(rules, venueId, r) && rules[r].effectiveFrom.Some?
    ensures IsLatest(rules, venueId, r) && forall q :: IsActive(rules, venueId, q) ==> q == r
  {
    forall q | IsActive(rules, venueId, q) ensures q == r {
    }
  }

  // ---------------------------------------------------------------- one operation more

  /** What no operation changes about a rule: its terms and parties, and a date once it is set. */
  predicate SameTerms(x: SplitRule, y: SplitRule) {
    && x.venueId == y.venueId && x.entertainerId == y.entertainerId && x.split == y.split && x.origin == y.origin
    && x.proposedByUserId == y.proposedByUserId
    && (x.effectiveFrom.Some? ==> y.effectiveFrom == x.effectiveFrom)
    && (x.effectiveTo.Some? ==> y.effectiveTo == x.effectiveTo)
  }

  ghost predicate Preserves(before: seq<SplitRule>, after: seq<SplitRule>) {
    |before| <= |after| && forall r | 0 <= r < |before| :: SameTerms(before[r], after[r])
  }

  lemma CloseOutPreserves(g: Governance, venueId: string, at: nat, except: Option<nat>)
    ensures Preserves(g.rules, CloseOut(g, venueId, at, except).rules)
  {
    forall r | 0 <= r < |g.rules| ensures SameTerms(g.rules[r], CloseOut(g, venueId, at, except).rules[r]) {
      CloseOutAt(g, venueId, at, except, r);
    }
  }

  lemma AnswerPreserves(g: Governance, ruleId: nat, accept: bool, clock: nat, at: nat)
    requires ruleId < |g.rules| && ShapeOk(g.rules[ruleId], clock)
    ensures Preserves(g.rules, AnswerTx(g, ruleId, accept, at).rules)
  {
    var rule := g.rules[ruleId];
    if rule.status == PENDING_ENTERTAINER_APPROVAL && accept {
      CloseOutPreserves(g.(rules := g.rules[ruleId := Answered(rule, accept, at)]), rule.venueId, at, Some(ruleId));
    }
  }

  lemma {:induction false} StepPreserves(ops: seq<Timed>)
    requires |ops| > 0 && Monotone(ops)
    ensures Preserves(RunRules(ops[..|ops| - 1]).rules, RunRules(ops).rules)
  {
    var shorter, last := ops[..|ops| - 1], ops[|ops| - 1];
    var g := RunRules(shorter);
    RunIsOk(shorter);
    match last.op
    case Propose(_, _, _, _) =>
    case Override(venueId, split, adminId) =>
      CloseOutPreserves(g, venueId, last.at, None);
    case Respond(ruleId, token, accept, seen) =>
      if ruleId < |g.rules| {
        AnswerPreserves(g, ruleId, accept, Clock(shorter), last.at);
      }
  }

  /** Terms never change after creation. */
  lemma {:induction false} TermsNeverChange(ops: seq<Timed>, more: seq<Timed>)
    requires Monotone(ops + more)
    ensures Preserves(RunRules(ops).rules, RunRules(ops + more).rules)
  {
    if |more| == 0 {
      assert ops + more == ops;
    } else {
      var longer := ops + more;
      assert longer[..|longer| - 1] == ops + more[..|more| - 1];
      TermsNeverChange(ops, more[..|more| - 1]);
      StepPreserves(longer);
    }
  }

  /** A venue that ever had an active rule has exactly one at every later state. */
  lemma NeverBackToNone(ops: seq<Timed>, more: seq<Timed>, venueId: string, r: nat)
    requires Monotone(ops + more) && IsActive(RunRules(ops).rules, venueId, r)
    ensures exists q :: IsActive(RunRules(ops + more).rules, venueId, q)
              && forall other :: IsActive(RunRules(ops + more).rules, venueId, other) ==> other == q
  {
    var all := ops + more;
    var rules := RunRules(all).rules;
    assert ops == all[..|ops|];
    RunIsOk(ops);
    RunIsOk(all);
    TermsNeverChange(ops, more);
    assert ShapeOk(RunRules(ops).rules[r], Clock(ops));
    assert StartedBy(rules, venueId, Clock(all), r);
    HistoryTilesTime(all, venueId, Clock(all), r);
    var q :| InForceAt(rules, venueId, Clock(all), q);
    QuotedRuleIsTheOneInForce(all, venueId, Clock(all), q);
  }

  /** History is never rewritten: which rule was in force at a past instant is settled. */
  lemma {:induction false} PastIsSettled(ops: seq<Timed>, more: seq<Timed>, venueId: string, t: nat, r: nat)
    requires Monotone(ops + more) && t < Clock(ops)
    ensures InForceAt(RunRules(ops + more).rules, venueId, t, r) <==> InForceAt(RunRules(ops).rules, venueId, t, r)
  {
    if |more| == 0 {
      assert ops + more == ops;
    } else {
      var longer := ops + more;
      assert longer[..|longer| - 1] == ops + more[..|more| - 1];
      PastIsSettled(ops, more[..|more| - 1], venueId, t, r);
      assert longer[|ops| - 1] == ops[|ops| - 1];
      StepSettlesPast(longer, venueId, t, r);
    }
  }

  lemma {:induction false} StepSettlesPast(ops: seq<Timed>, venueId: string, t: nat, r: nat)
    requires |ops| > 0 && Monotone(ops) && t < ops[|ops| - 1].at
    ensures InForceAt(RunRules(ops).rules, venueId, t, r)
            <==> InForceAt(RunRules(ops[..|ops| - 1]).rules, venueId, t, r)
  {
    var shorter, last := ops[..|ops| - 1], ops[|ops| - 1];
    var g, h := RunRules(shorter), RunRules(ops);
    RunIsOk(shorter);
    Later(g, Clock(shorter), last.at);
    match last.op
    case Propose(_, _, _, _) =>
    case Override(owner, split, adminId) =>
      if ValidSplit(split) {
        OverrideActivates(g, owner, split, adminId, last.at);
        PastOfActivation(g.rules, h.rules, owner, |g.rules|, last.at, venueId, t, r);
      }
    case Respond(ruleId, token, accept, seen) =>
      if accept && ruleId < |g.rules| && g.rules[ruleId].status == PENDING_ENTERTAINER_APPROVAL {
        AnswerActivates(g, ruleId, last.at);
        PastOfActivation(g.rules, AnswerTx(g, ruleId, true, last.at).rules, g.rules[ruleId].venueId, ruleId, last.at,
                         venueId, t, r);
      }
  }

  lemma PastOfActivation(before: seq<SplitRule>, after: seq<SplitRule>, owner: string, q: nat, at: nat, venueId: string,
                         t: nat, r: nat)
    requires forall i | 0 <= i < |before| :: ShapeOk(before[i], at)
    requires Activates(before, after, owner, q, at) && t < at
    ensures InForceAt(after, venueId, t, r) <==> InForceAt(before, venueId, t, r)
  {
    if r < |before| {
      assert ShapeOk(before[r], at);
    }
  }

  // ---------------------------------------------------------------- who wrote the terms

  /** This operation wrote these terms: a proposal whose parts and the platform's fee make up 10000, of an entertainer
      who exists and works at the venue, or an administrator's override. */
  predicate CreatedBy(rule: SplitRule, op: RuleOp) {
    match op
    case Propose(dto, context, token, userId) =>
      && rule.origin == VENUE_PROPOSAL && rule.proposedByUserId == userId
      && rule.venueId == dto.venueId && rule.entertainerId == Some(dto.entertainerId)
      && rule.split.entertainerBps == dto.entertainerBps && rule.split.venueBps == dto.venueBps
      && rule.split.platformBps == context.platformBps
      && dto.entertainerBps >= 0 && dto.venueBps >= 0 && context.platformBps >= 0
      && dto.entertainerBps + dto.venueBps + context.platformBps == 10000
      && context.entertainerExists && context.linked
    case Override(venueId, split, adminId) =>
      && rule.origin == ADMIN_OVERRIDE && rule.proposedByUserId == adminId
      && rule.venueId == venueId && rule.entertainerId == None
      && rule.split.entertainerBps == split.entertainerBps && rule.split.venueBps == split.venueBps
      && rule.split.platformBps == split.platformBps
    case Respond(_, _, _, _) => false
  }

  /** Operation j added rule r. */
  predicate Appended(ops: seq<Timed>, j: nat, r: nat) {
    j < |ops| && |RunRules(ops[..j]).rules| == r < |RunRules(ops[..j + 1]).rules|
  }

  lemma AppendedStays(ops: seq<Timed>, j: nat, r: nat)
    requires |ops| > 0 && Appended(ops[..|ops| - 1], j, r)
    ensures Appended(ops, j, r)
  {
    assert ops[..|ops| - 1][..j] == ops[..j] && ops[..|ops| - 1][..j + 1] == ops[..j + 1];
  }

  /** A rule that is new after the last operation is its only one, and has its terms. */
  lemma NewRuleWasCreated(ops: seq<Timed>, r: nat)
    requires |ops| > 0 && |RunRules(ops[..|ops| - 1]).rules| <= r < |RunRules(ops).rules|
    ensures Appended(ops, |ops| - 1, r) && CreatedBy(RunRules(ops).rules[r], ops[|ops| - 1].op)
  {
    assert ops[..|ops|] == ops;
    match ops[|ops| - 1].op
    case Propose(_, _, _, _) =>
    case Override(_, _, _) =>
    case Respond(_, _, _, _) =>
  }

  lemma SameTermsSameCreator(x: SplitRule, y: SplitRule, op: RuleOp)
    requires SameTerms(x, y) && CreatedBy(x, op)
    ensures CreatedBy(y, op)
  {
  }

  /** Whatever has happened since, a rule has the terms of the operation that added it. */
  lemma AppenderCreated(ops: seq<Timed>, j: nat, r: nat)
    requires Monotone(ops) && Appended(ops, j, r)
    ensures r < |RunRules(ops).rules| && CreatedBy(RunRules(ops).rules[r], ops[j].op)
  {
    var upTo := ops[..j + 1];
    assert upTo[..|upTo| - 1] == ops[..j] && upTo + ops[j + 1..] == ops;
    NewRuleWasCreated(upTo, r);
    TermsNeverChange(upTo, ops[j + 1..]);
    SameTermsSameCreator(RunRules(upTo).rules[r], RunRules(ops).rules[r], ops[j].op);
  }

  /** Every rule of every run has the very terms of one proposal or override, which added it. */
  lemma {:induction false} EveryRuleWasCreated(ops: seq<Timed>, r: nat)
    requires Monotone(ops) && r < |RunRules(ops).rules|
    ensures exists j: nat :: Appended(ops, j, r) && CreatedBy(RunRules(ops).rules[r], ops[j].op)
  {
    assert |ops| > 0;
    var shorter := ops[..|ops| - 1];
    if r < |RunRules(shorter).rules| {
      EveryRuleWasCreated(shorter, r);
      var j: nat :| Appended(shorter, j, r) && CreatedBy(RunRules(shorter).rules[r], shorter[j].op);
      AppendedStays(ops, j, r);
      AppenderCreated(ops, j, r);
    } else {
      NewRuleWasCreated(ops, r);
    }
  }

  /** Exactly these proposals are stored; a refused one fails the check named, and every check before it passed. */
  lemma ProposalChecks(dto: ProposalDto, context: Context)
    ensures var inRange := 0 <= dto.entertainerBps <= 10000 && 0 <= dto.venueBps <= 10000
                           && 0 <= context.platformBps <= 10000;
            var rightSum := dto.entertainerBps + dto.venueBps + context.platformBps == 10000;
            match ProposalError(dto, context)
            case None => inRange && rightSum && context.entertainerExists && context.linked
            case Some(InvalidRequest) => !inRange
            case Some(WrongSum(splittable)) => inRange && !rightSum && splittable == 10000 - context.platformBps
            case Some(EntertainerNotFound) => inRange && rightSum && !context.entertainerExists
            case Some(NotLinked) => inRange && rightSum && context.entertainerExists && !context.linked
            case _ => false
  {
  }

  /** A proposal takes back the venue's own open ones, and nobody else's, and is open itself. */
  lemma ProposalReplacesOpenOnes(g: Governance, dto: ProposalDto, platformBps: int, token: nat, userId: string, r: nat)
    requires r <= |g.rules|
    ensures var h := ProposeTx(g, dto, platformBps, token, userId);
            && |h.rules| == |g.rules| + 1
            && h.audit == g.audit + [AuditEvent(|g.rules|, PROPOSED, VenueAdmin(userId))]
            && (if r == |g.rules| then h.rules[r].status == PENDING_ENTERTAINER_APPROVAL
                && h.rules[r].token == Some(token)
                else if g.rules[r].venueId == dto.venueId && g.rules[r].status == PENDING_ENTERTAINER_APPROVAL
                then h.rules[r] == g.rules[r].(status := WITHDRAWN, token := None)
                else h.rules[r] == g.rules[r])
  {
  }

  /** An answer to an open proposal decides it at that instant: accepted it is in force from then on, declined it never
      is; either way its token is used up and the answer audited. Any other answer changes nothing. */
  lemma AnswerDecides(g: Governance, ruleId: nat, accept: bool, at: nat)
    requires ruleId < |g.rules|
    ensures var rule, h := g.rules[ruleId], AnswerTx(g, ruleId, accept, at);
            if rule.status != PENDING_ENTERTAINER_APPROVAL then h == g
            else
              && |h.rules| == |g.rules|
              && h.rules[ruleId] == (if accept then rule.(status := ACTIVE, effectiveFrom := Some(at),
                                                          respondedAt := Some(at), token := None)
                                     else rule.(status := REJECTED, respondedAt := Some(at), token := None))
              && h.audit != [] && h.audit[|h.audit| - 1]
                                  == AuditEvent(ruleId, if accept then ACCEPTED else DECLINED,
                                                ByEntertainer(rule.entertainerId))
              && (!accept ==> forall r | 0 <= r < |g.rules| && r != ruleId :: h.rules[r] == g.rules[r])
  {
    if accept && g.rules[ruleId].status == PENDING_ENTERTAINER_APPROVAL {
      CloseOutAt(g.(rules := g.rules[ruleId := Answered(g.rules[ruleId], true, at)]), g.rules[ruleId].venueId, at,
                 Some(ruleId), ruleId);
    }
  }

  // ---------------------------------------------------------------- consent

  /** At most one open proposal per venue, and a token exactly while it is open; the whole trail of a rule follows
      from its row, so each proposal is answered at most once, and venue terms in force (or once in force) carry exactly
      one acceptance, by the entertainer they name. */
  lemma {:induction false} ConsentIsRecorded(ops: seq<Timed>, r: nat)
    requires Monotone(ops) && r < |RunRules(ops).rules|
    ensures var g := RunRules(ops); var rule := g.rules[r];
            && (rule.token.Some? <==> rule.status == PENDING_ENTERTAINER_APPROVAL)
            && AtMostOne(g.rules, PENDING_ENTERTAINER_APPROVAL) && AtMostOne(g.rules, ACTIVE)
            && EventsOf(g.audit, r) == Trail(rule, r)
            && (rule.origin == VENUE_PROPOSAL && rule.status == ACTIVE ==>
                  && rule.entertainerId.Some?
                  && EventsOf(g.audit, r) == [AuditEvent(r, PROPOSED, VenueAdmin(rule.proposedByUserId)),
                                              AuditEvent(r, ACCEPTED, ByEntertainer(rule.entertainerId))])
  {
    RunIsOk(ops);
    assert ShapeOk(RunRules(ops).rules[r], Clock(ops));
  }

  /** Operation j proposed rule r and issued this token for it. */
  predicate Issued(ops: seq<Timed>, j: nat, r: nat, token: nat) {
    j < |ops| && ops[j].op.Propose? && ops[j].op.token == token && Appended(ops, j, r)
  }

  /** Operation i answered rule r with this token. */
  predicate AcceptedBy(ops: seq<Timed>, i: nat, r: nat, token: nat) {
    i < |ops| && ops[i].op.Respond? && ops[i].op.ruleId == r && ops[i].op.token == token && ops[i].op.accept
  }

  lemma IssuedStays(ops: seq<Timed>, j: nat, r: nat, token: nat)
    requires |ops| > 0 && Issued(ops[..|ops| - 1], j, r, token)
    ensures Issued(ops, j, r, token)
  {
    AppendedStays(ops, j, r);
  }

  lemma {:induction false} TokenWasIssued(ops: seq<Timed>, r: nat) returns (j: nat)
    requires Monotone(ops) && r < |RunRules(ops).rules| && RunRules(ops).rules[r].token.Some?
    ensures Issued(ops, j, r, RunRules(ops).rules[r].token.value)
  {
    assert |ops| > 0;
    var shorter := ops[..|ops| - 1];
    if r < |RunRules(shorter).rules| {
      TokenIsOld(ops, r);
      j := TokenWasIssued(shorter, r);
      IssuedStays(ops, j, r, RunRules(ops).rules[r].token.value);
    } else {
      NewTokenIsIssued(ops, r);
      j := |ops| - 1;
    }
  }

  lemma NewTokenIsIssued(ops: seq<Timed>, r: nat)
    requires |ops| > 0 && |RunRules(ops[..|ops| - 1]).rules| <= r < |RunRules(ops).rules|
             && RunRules(ops).rules[r].token.Some?
    ensures Issued(ops, |ops| - 1, r, RunRules(ops).rules[r].token.value)
  {
    NewRuleWasCreated(ops, r);
    match ops[|ops| - 1].op
    case Propose(_, _, _, _) =>
    case Override(_, _, _) =>
    case Respond(_, _, _, _) =>
  }

  /** A rule's token, while it has one, is the one it was created with. */
  lemma TokenIsOld(ops: seq<Timed>, r: nat)
    requires |ops| > 0 && r < |RunRules(ops[..|ops| - 1]).rules| && r < |RunRules(ops).rules|
    requires RunRules(ops).rules[r].token.Some?
    ensures RunRules(ops[..|ops| - 1]).rules[r].token == RunRules(ops).rules[r].token
  {
    var g, last := RunRules(ops[..|ops| - 1]), ops[|ops| - 1];
    match last.op
    case Propose(_, _, _, _) =>
    case Override(venueId, split, adminId) =>
      CloseOutAt(g, venueId, last.at, None, r);
    case Respond(ruleId, token, accept, seen) =>
      if ruleId < |g.rules| && accept {
        CloseOutAt(g.(rules := g.rules[ruleId := Answered(g.rules[ruleId], accept, last.at)]), g.rules[ruleId].venueId,
                   last.at, Some(ruleId), r);
      }
  }

  /** Operation j issued the token for rule r, and the later operation i accepted the rule with it. */
  predicate AcceptedWith(ops: seq<Timed>, j: nat, i: nat, r: nat, token: nat) {
    j < i && Issued(ops, j, r, token) && AcceptedBy(ops, i, r, token)
  }

  /** Venue terms come into force only by an answer that presented the very token issued when they were proposed, and
      they are what was proposed then: the shares, the venue and the entertainer. */
  lemma {:induction false} AcceptedWithItsToken(ops: seq<Timed>, r: nat)
    requires Monotone(ops) && r < |RunRules(ops).rules|
    requires RunRules(ops).rules[r].origin == VENUE_PROPOSAL && RunRules(ops).rules[r].effectiveFrom.Some?
    ensures exists j: nat, i: nat, token: nat ::
              AcceptedWith(ops, j, i, r, token) && CreatedBy(RunRules(ops).rules[r], ops[j].op)
  {
    assert |ops| > 0;
    var shorter := ops[..|ops| - 1];
    if r < |RunRules(shorter).rules| && RunRules(shorter).rules[r].effectiveFrom.Some? {
      StepPreserves(ops);
      AcceptedWithItsToken(shorter, r);
      var j: nat, i: nat, token: nat :| AcceptedWith(shorter, j, i, r, token);
      IssuedStays(ops, j, r, token);
      AppenderCreated(ops, j, r);
      assert AcceptedWith(ops, j, i, r, token);
    } else {
      OnlyAnsweringActivates(ops, r);
      var j := AnswerHadItsToken(ops, r);
      AppenderCreated(ops, j, r);
      assert AcceptedWith(ops, j, |ops| - 1, r, ops[|ops| - 1].op.token);
    }
  }

  lemma AnswerHadItsToken(ops: seq<Timed>, r: nat) returns (j: nat)
    requires Monotone(ops) && |ops| > 0
    requires var op := ops[|ops| - 1].op;
             op.Respond? && op.seen < |ops| && LinkIsValid(RunRules(ops[..op.seen]), r, op.token)
    ensures j < |ops| - 1 && Issued(ops, j, r, ops[|ops| - 1].op.token)
  {
    var seen, token := ops[|ops| - 1].op.seen, ops[|ops| - 1].op.token;
    j := TokenWasIssued(ops[..seen], r);
    assert ops[..seen][..j] == ops[..j] && ops[..seen][..j + 1] == ops[..j + 1];
  }

  lemma OnlyAnsweringActivates(ops: seq<Timed>, r: nat)
    requires |ops| > 0 && r < |RunRules(ops).rules|
    requires RunRules(ops).rules[r].origin == VENUE_PROPOSAL && RunRules(ops).rules[r].effectiveFrom.Some?
    requires r < |RunRules(ops[..|ops| - 1]).rules| ==> RunRules(ops[..|ops| - 1]).rules[r].effectiveFrom.None?
    ensures var op := ops[|ops| - 1].op;
            && op.Respond? && op.ruleId == r && op.accept && op.seen < |ops|
            && LinkIsValid(RunRules(ops[..op.seen]), r, op.token)
  {
    var g, last := RunRules(ops[..|ops| - 1]), ops[|ops| - 1];
    match last.op
    case Propose(_, _, _, _) =>
    case Override(venueId, split, adminId) =>
      if r < |g.rules| {
        CloseOutAt(g, venueId, last.at, None, r);
      }
    case Respond(ruleId, token, accept, seen) =>
      if ruleId < |g.rules| && r < |g.rules| {
        CloseOutAt(g.(rules := g.rules[ruleId := Answered(g.rules[ruleId], accept, last.at)]), g.rules[ruleId].venueId,
                   last.at, Some(ruleId), r);
      }
  }
}
