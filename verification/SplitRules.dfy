/** SplitRulesService: who agreed to which shares, and which rule was in force when. Rules are addressed by position. */
module SplitRules {
  import opened Wrappers
  import opened Ledger

  datatype RuleStatus = PENDING_ENTERTAINER_APPROVAL | ACTIVE | REJECTED | SUPERSEDED | WITHDRAWN

  datatype RuleOrigin = VENUE_PROPOSAL | ADMIN_OVERRIDE

  /** token stands for the stored hash of the consent token; dates are clock readings. */
  datatype SplitRule = SplitRule(
    venueId: string, entertainerId: Option<string>, split: Split, status: RuleStatus, origin: RuleOrigin,
    proposedByUserId: string, effectiveFrom: Option<nat>, effectiveTo: Option<nat>, respondedAt: Option<nat>,
    token: Option<nat>)

  datatype AuditKind = PROPOSED | OVERRIDDEN | ACCEPTED | DECLINED | CLOSED

  datatype Actor =
    | VenueAdmin(userId: string) | PlatformAdmin(userId: string) | ByEntertainer(id: Option<string>) | System

  datatype AuditEvent = AuditEvent(ruleId: nat, kind: AuditKind, actor: Actor)

  datatype RuleError =
    | InvalidRequest | WrongSum(splittable: int) | EntertainerNotFound | NotLinked | LinkNotValid | AlreadyAnswered

  /** The split_rules and split_rule_audit_events tables. */
  datatype Governance = Governance(rules: seq<SplitRule>, audit: seq<AuditEvent>)

  const NOTHING := Governance([], [])

  datatype ProposalDto = ProposalDto(venueId: string, entertainerId: string, entertainerBps: int, venueBps: int)

  /** What propose reads before its transaction. */
  datatype Context = Context(platformBps: int, entertainerExists: bool, linked: bool)

  predicate InRange(bps: int) { 0 <= bps <= BASIS_POINTS_TOTAL }

  // ---------------------------------------------------------------- the transactions

  function ProposalError(dto: ProposalDto, context: Context): Option<RuleError> {
    var splittable := BASIS_POINTS_TOTAL - context.platformBps;
    if !InRange(dto.entertainerBps) || !InRange(dto.venueBps) || !InRange(context.platformBps) then Some(InvalidRequest)
    else if dto.entertainerBps + dto.venueBps != splittable then Some(WrongSum(splittable))
    else if !context.entertainerExists then Some(EntertainerNotFound)
    else if !context.linked then Some(NotLinked)
    else None
  }

  /** updateMany over the venue's open proposals. */
  function Withdraw(rules: seq<SplitRule>, venueId: string): (out: seq<SplitRule>)
    ensures |out| == |rules|
  {
    seq(|rules|, r requires 0 <= r < |rules| =>
      if rules[r].venueId == venueId && rules[r].status == PENDING_ENTERTAINER_APPROVAL
      then rules[r].(status := WITHDRAWN, token := None) else rules[r])
  }

  function Proposed(dto: ProposalDto, platformBps: int, token: nat, userId: string): SplitRule {
    SplitRule(dto.venueId, Some(dto.entertainerId), Split(dto.entertainerBps, dto.venueBps, platformBps),
              PENDING_ENTERTAINER_APPROVAL, VENUE_PROPOSAL, userId, None, None, None, Some(token))
  }

  function ProposeTx(g: Governance, dto: ProposalDto, platformBps: int, token: nat, userId: string): Governance {
    Governance(Withdraw(g.rules, dto.venueId) + [Proposed(dto, platformBps, token, userId)],
               g.audit + [AuditEvent(|g.rules|, PROPOSED, VenueAdmin(userId))])
  }

  /** Rule r is one closeOutActive ends. */
  predicate IsOutgoing(rules: seq<SplitRule>, venueId: string, except: Option<nat>, r: nat)
    requires r < |rules|
  {
    rules[r].venueId == venueId && rules[r].status == ACTIVE && rules[r].effectiveTo.None? && except != Some(r)
  }

  /** The outgoing rules among the first n. */
  function Outgoing(rules: seq<SplitRule>, venueId: string, except: Option<nat>, n: nat): seq<nat>
    requires n <= |rules|
  {
    if n == 0 then []
    else Outgoing(rules, venueId, except, n - 1) + if IsOutgoing(rules, venueId, except, n - 1) then [n - 1] else []
  }

  lemma {:induction false} OutgoingMembers(rules: seq<SplitRule>, venueId: string, except: Option<nat>, n: nat, r: nat)
    requires n <= |rules|
    ensures r in Outgoing(rules, venueId, except, n) <==> r < n && IsOutgoing(rules, venueId, except, r)
  {
    if n > 0 {
      OutgoingMembers(rules, venueId, except, n - 1, r);
    }
  }

  function Close(rules: seq<SplitRule>, ids: seq<nat>, at: nat): (out: seq<SplitRule>)
    ensures |out| == |rules|
  {
    seq(|rules|, r requires 0 <= r < |rules| =>
      if r in ids then rules[r].(status := SUPERSEDED, effectiveTo := Some(at)) else rules[r])
  }

  function ClosingEvents(ids: seq<nat>): seq<AuditEvent> {
    seq(|ids|, i requires 0 <= i < |ids| => AuditEvent(ids[i], CLOSED, System))
  }

  function CloseOut(g: Governance, venueId: string, at: nat, except: Option<nat>): (h: Governance)
    ensures |h.rules| == |g.rules|
  {
    var ids := Outgoing(g.rules, venueId, except, |g.rules|);
    Governance(Close(g.rules, ids, at), g.audit + ClosingEvents(ids))
  }

  function Overriding(venueId: string, split: Split, adminId: string, at: nat): SplitRule {
    SplitRule(venueId, None, split, ACTIVE, ADMIN_OVERRIDE, adminId, Some(at), None, None, None)
  }

  function OverrideTx(g: Governance, venueId: string, split: Split, adminId: string, at: nat): Governance {
    var closed := CloseOut(g, venueId, at, None);
    Governance(closed.rules + [Overriding(venueId, split, adminId, at)],
               closed.audit + [AuditEvent(|g.rules|, OVERRIDDEN, PlatformAdmin(adminId))])
  }

  /** findByConsentToken: every reason to refuse is the same answer. */
  predicate LinkIsValid(g: Governance, ruleId: nat, token: nat) {
    ruleId < |g.rules| && g.rules[ruleId].token == Some(token) && g.rules[ruleId].status == PENDING_ENTERTAINER_APPROVAL
  }

  function Answered(rule: SplitRule, accept: bool, at: nat): SplitRule {
    if accept then rule.(status := ACTIVE, effectiveFrom := Some(at), respondedAt := Some(at), token := None)
    else rule.(status := REJECTED, respondedAt := Some(at), token := None)
  }

  /** The transaction of respond; a proposal no longer open rolls back. */
  function AnswerTx(g: Governance, ruleId: nat, accept: bool, at: nat): Governance
    requires ruleId < |g.rules|
  {
    var rule := g.rules[ruleId];
    if rule.status != PENDING_ENTERTAINER_APPROVAL then g
    else
      var claimed := g.(rules := g.rules[ruleId := Answered(rule, accept, at)]);
      var closed := if accept then CloseOut(claimed, rule.venueId, at, Some(ruleId)) else claimed;
      closed.(audit := closed.audit
                       + [AuditEvent(ruleId, if accept then ACCEPTED else DECLINED, ByEntertainer(rule.entertainerId))])
  }

  /** The rules money may be divided by. */
  predicate IsActive(rules: seq<SplitRule>, venueId: string, r: nat) {
    r < |rules| && rules[r].venueId == venueId && rules[r].status == ACTIVE && rules[r].effectiveTo.None?
  }

  /** No active rule of the venue started later. */
  predicate IsLatest(rules: seq<SplitRule>, venueId: string, r: nat) {
    IsActive(rules, venueId, r) && rules[r].effectiveFrom.Some?
    && forall q | 0 <= q < |rules| && IsActive(rules, venueId, q) && rules[q].effectiveFrom.Some? ::
         rules[q].effectiveFrom.value <= rules[r].effectiveFrom.value
  }

  // ---------------------------------------------------------------- runs

  /** seen is how many operations had run when respond looked its link up; its transaction may come later. */
  datatype RuleOp =
    | Propose(dto: ProposalDto, context: Context, token: nat, userId: string)
    | Override(venueId: string, split: Split, adminId: string)
    | Respond(ruleId: nat, token: nat, accept: bool, seen: nat)

  datatype Timed = Timed(op: RuleOp, at: nat)

  function RunRules(ops: seq<Timed>): Governance {
    if |ops| == 0 then NOTHING
    else
      var g, last := RunRules(ops[..|ops| - 1]), ops[|ops| - 1];
      match last.op
      case Propose(dto, context, token, userId) =>
        if ProposalError(dto, context).Some? then g else ProposeTx(g, dto, context.platformBps, token, userId)
      case Override(venueId, split, adminId) =>
        if !ValidSplit(split) then g else OverrideTx(g, venueId, split, adminId, last.at)
      case Respond(ruleId, token, accept, seen) =>
        if seen < |ops| && LinkIsValid(RunRules(ops[..seen]), ruleId, token) && ruleId < |g.rules|
        then AnswerTx(g, ruleId, accept, last.at)
        else g
  }

  /** The clock does not go backwards. */
  predicate Monotone(ops: seq<Timed>) {
    forall i, j | 0 <= i < j < |ops| :: ops[i].at <= ops[j].at
  }

  function Clock(ops: seq<Timed>): nat {
    if |ops| == 0 then 0 else ops[|ops| - 1].at
  }

  // ---------------------------------------------------------------- the service

  /** These operations lead to these tables. (The quantifier keeps the run folded.) */
  ghost predicate RulesReached(ops: seq<Timed>, g: Governance) {
    Monotone(ops) && forall all | all == ops :: RunRules(all) == g
  }

  lemma RulesReachNext(ops: seq<Timed>, g: Governance, next: Timed, h: Governance)
    requires RulesReached(ops, g) && Clock(ops) <= next.at && RunRules(ops + [next]) == h
    ensures RulesReached(ops + [next], h) && Clock(ops + [next]) == next.at
  {
  }

  lemma ReachByProposing(ops: seq<Timed>, g: Governance, dto: ProposalDto, context: Context, token: nat, userId: string,
                         at: nat)
    requires RulesReached(ops, g) && Clock(ops) <= at && ProposalError(dto, context).None?
    ensures RulesReached(ops + [Timed(Propose(dto, context, token, userId), at)],
                         ProposeTx(g, dto, context.platformBps, token, userId))
  {
    var next := Timed(Propose(dto, context, token, userId), at);
    assert (ops + [next])[..|ops|] == ops && RunRules(ops) == g;
    RulesReachNext(ops, g, next, ProposeTx(g, dto, context.platformBps, token, userId));
  }

  lemma ReachByOverriding(ops: seq<Timed>, g: Governance, venueId: string, split: Split, adminId: string, at: nat)
    requires RulesReached(ops, g) && Clock(ops) <= at && ValidSplit(split)
    ensures RulesReached(ops + [Timed(Override(venueId, split, adminId), at)],
                         OverrideTx(g, venueId, split, adminId, at))
  {
    var next := Timed(Override(venueId, split, adminId), at);
    assert (ops + [next])[..|ops|] == ops && RunRules(ops) == g;
    RulesReachNext(ops, g, next, OverrideTx(g, venueId, split, adminId, at));
  }

  lemma ReachByAnswering(earlier: seq<Timed>, lookedUp: Governance, ops: seq<Timed>, g: Governance, ruleId: nat,
                         token: nat, accept: bool, at: nat)
    requires RulesReached(earlier, lookedUp) && LinkIsValid(lookedUp, ruleId, token)
    requires earlier <= ops && RulesReached(ops, g) && Clock(ops) <= at && ruleId < |g.rules|
    ensures RulesReached(ops + [Timed(Respond(ruleId, token, accept, |earlier|), at)], AnswerTx(g, ruleId, accept, at))
  {
    var next := Timed(Respond(ruleId, token, accept, |earlier|), at);
    assert (ops + [next])[..|ops|] == ops && RunRules(ops) == g;
    assert (ops + [next])[..|earlier|] == earlier && RunRules(earlier) == lookedUp;
    RulesReachNext(ops, g, next, AnswerTx(g, ruleId, accept, at));
  }

  class SplitRulesService {
    var rules: seq<SplitRule>
    var audit: seq<AuditEvent>
    /** The clock's last reading. */
    var clock: nat
    /** Every operation that reached its transaction. */
    ghost var ops: seq<Timed>

    predicate Holds(g: Governance)
      reads this
    {
      rules == g.rules && audit == g.audit
    }

    ghost predicate Valid()
      reads this
    {
      RulesReached(ops, Governance(rules, audit)) && Clock(ops) <= clock
    }

    constructor ()
      ensures Valid() && Holds(NOTHING) && ops == []
    {
      rules, audit, clock, ops := [], [], 0, [];
    }

    /** The clock does not go backwards. */
    method Now() returns (now: nat)
      modifies this`clock
      ensures old(clock) <= clock == now
    {
      var ticks: int :| ticks >= 0;
      clock := clock + ticks;
      now := clock;
    }

    method Propose(dto: ProposalDto, context: Context, token: nat, userId: string) returns (r: Result<nat, RuleError>)
      requires Valid()
      modifies this
      ensures Valid()
      ensures r.Err? <==> ProposalError(dto, context).Some?
      ensures r.Err? ==> && Some(r.error) == ProposalError(dto, context) && ops == old(ops)
                         && Holds(old(Governance(rules, audit)))
      ensures r.Ok? ==> && r.value == |old(rules)|
                        && ops == old(ops) + [Timed(RuleOp.Propose(dto, context, token, userId), clock)]
                        && Holds(ProposeTx(old(Governance(rules, audit)), dto, context.platformBps, token, userId))
    {
      if !InRange(dto.entertainerBps) || !InRange(dto.venueBps) || !InRange(context.platformBps) {
        return Err(InvalidRequest);
      }
      var splittable := BASIS_POINTS_TOTAL - context.platformBps;
      if dto.entertainerBps + dto.venueBps != splittable {
        return Err(WrongSum(splittable));
      }
      if !context.entertainerExists {
        return Err(EntertainerNotFound);
      }
      if !context.linked {
        return Err(NotLinked);
      }
      var now := Now();
      ReachByProposing(ops, Governance(rules, audit), dto, context, token, userId, now);
      rules := Withdraw(rules, dto.venueId);
      var created := |rules|;
      rules := rules + [Proposed(dto, context.platformBps, token, userId)];
      audit := audit + [AuditEvent(created, PROPOSED, VenueAdmin(userId))];
      ops := ops + [Timed(RuleOp.Propose(dto, context, token, userId), now)];
      return Ok(created);
    }

    method Override(venueId: string, split: Split, adminId: string) returns (r: Result<nat, RuleError>)
      requires Valid()
      modifies this
      ensures Valid()
      ensures r == if ValidSplit(split) then Ok(|old(rules)|) else Err(InvalidRequest)
      ensures r.Err? ==> ops == old(ops) && Holds(old(Governance(rules, audit)))
      ensures r.Ok? ==> && ops == old(ops) + [Timed(RuleOp.Override(venueId, split, adminId), clock)]
                        && Holds(OverrideTx(old(Governance(rules, audit)), venueId, split, adminId, clock))
    {
      if !ValidSplit(split) {
        return Err(InvalidRequest);
      }
      var now := Now();
      ReachByOverriding(ops, Governance(rules, audit), venueId, split, adminId, now);
      CloseOutActive(venueId, now, None);
      var created := |rules|;
      rules := rules + [Overriding(venueId, split, adminId, now)];
      audit := audit + [AuditEvent(created, OVERRIDDEN, PlatformAdmin(adminId))];
      ops := ops + [Timed(RuleOp.Override(venueId, split, adminId), now)];
      return Ok(created);
    }

    method FindByConsentToken(ruleId: nat, token: nat) returns (found: bool)
      ensures found == LinkIsValid(Governance(rules, audit), ruleId, token)
    {
      found := ruleId < |rules| && rules[ruleId].token.Some? && rules[ruleId].token.value == token
               && rules[ruleId].status == PENDING_ENTERTAINER_APPROVAL;
    }

    /** Other requests come in between the lookup and the transaction. Rules are never removed. */
    method Elsewhere()
      requires Valid()
      modifies this
      ensures Valid() && old(ops) <= ops && |old(rules)| <= |rules| && old(clock) <= clock
    {
    }

    /** before is what the transaction finds. */
    method Respond(ruleId: nat, token: nat, accept: bool) returns (error: Option<RuleError>, ghost before: Governance)
      requires Valid()
      modifies this
      ensures Valid() && old(ops) <= ops
      ensures var valid := LinkIsValid(old(Governance(rules, audit)), ruleId, token);
              && (!valid ==> error == Some(LinkNotValid) && before == old(Governance(rules, audit)) && Holds(before))
              && (valid ==>
                    && ruleId < |before.rules| && Holds(AnswerTx(before, ruleId, accept, clock))
                    && |ops| > |old(ops)| && RulesReached(ops[..|ops| - 1], before)
                    && ops[|ops| - 1] == Timed(RuleOp.Respond(ruleId, token, accept, |old(ops)|), clock)
                    && error == if before.rules[ruleId].status == PENDING_ENTERTAINER_APPROVAL then None
                                else Some(AlreadyAnswered))
    {
      before := Governance(rules, audit);
      ghost var lookedUp, earlier := before, ops;
      var found := FindByConsentToken(ruleId, token);
      if !found {
        return Some(LinkNotValid), before;
      }
      Elsewhere();
      before := Governance(rules, audit);
      var now := Now();
      ReachByAnswering(earlier, lookedUp, ops, before, ruleId, token, accept, now);
      ops := ops + [Timed(RuleOp.Respond(ruleId, token, accept, |earlier|), now)];
      assert ops[..|ops| - 1] == old(ops) + ops[|old(ops)|..|ops| - 1];
      error := Answer(ruleId, accept, now);
    }

    /** The transaction of respond. */
    method Answer(ruleId: nat, accept: bool, now: nat) returns (error: Option<RuleError>)
      requires ruleId < |rules|
      modifies this`rules, this`audit
      ensures Holds(AnswerTx(old(Governance(rules, audit)), ruleId, accept, now))
      ensures error == if old(rules)[ruleId].status == PENDING_ENTERTAINER_APPROVAL then None else Some(AlreadyAnswered)
    {
      var rule := rules[ruleId];
      if rule.status != PENDING_ENTERTAINER_APPROVAL {
        return Some(AlreadyAnswered);
      }
      if accept {
        rules := rules[ruleId := rule.(status := ACTIVE, effectiveFrom := Some(now), respondedAt := Some(now),
                                       token := None)];
        CloseOutActive(rule.venueId, now, Some(ruleId));
      } else {
        rules := rules[ruleId := rule.(status := REJECTED, respondedAt := Some(now), token := None)];
      }
      audit := audit + [AuditEvent(ruleId, if accept then ACCEPTED else DECLINED, ByEntertainer(rule.entertainerId))];
      return None;
    }

    method CloseOutActive(venueId: string, at: nat, except: Option<nat>)
      modifies this`rules, this`audit
      ensures Holds(CloseOut(old(Governance(rules, audit)), venueId, at, except))
    {
      var outgoing := Outgoing(rules, venueId, except, |rules|);
      for i := 0 to |outgoing|
        invariant rules == Close(old(rules), outgoing[..i], at)
        invariant audit == old(audit) + ClosingEvents(outgoing[..i])
      {
        var rule := outgoing[i];
        OutgoingMembers(old(rules), venueId, except, |old(rules)|, rule);
        assert outgoing[..i + 1] == outgoing[..i] + [rule];
        rules := rules[rule := rules[rule].(status := SUPERSEDED, effectiveTo := Some(at))];
        audit := audit + [AuditEvent(rule, CLOSED, System)];
        assert ClosingEvents(outgoing[..i + 1]) == ClosingEvents(outgoing[..i]) + [AuditEvent(rule, CLOSED, System)];
      }
      assert outgoing[..|outgoing|] == outgoing;
    }
  }
}
