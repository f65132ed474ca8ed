/** Money goes where the gate said: a transfer's account is the one resolving the destination answered to the very run
    that claimed this attempt, between that answer and the claim. */
module Payees {
  import opened Tables
  import opened Protocol
  import opened Safety
  import Guarantees
  import SingleTransfer

  /** After the first actions, as many as moment says, worker w is at pc. (The quantifier keeps the run folded.) */
  ghost predicate AtMoment(serial: bool, actions: seq<Action>, moment: nat, w: nat, pc: Pc)
    requires moment <= |actions|
  {
    forall start: State | start == INITIAL ::
      var s := Run(serial, start, actions[..moment]); w in s.workers && s.workers[w].pc == pc
  }

  /** The action after moment made this claim. */
  ghost predicate Took(serial: bool, actions: seq<Action>, moment: nat, claim: Claim)
    requires moment < |actions|
  {
    forall start: State | start == INITIAL ::
      Run(serial, start, actions[..moment + 1]).claims == Run(serial, start, actions[..moment]).claims + [claim]
  }

  /** At moment asked the gate answered worker w with this payee, and until moment now w has taken no further step. */
  ghost predicate Answered(serial: bool, actions: seq<Action>, asked: nat, now: nat, w: nat, p: nat, seen: Payout,
                           payee: Payee)
  {
    && asked < now <= |actions|
    && actions[asked].Advance? && actions[asked].w == w && actions[asked].choice.verdict == Send(payee)
    && AtMoment(serial, actions, asked, w, PayoutResolve(p, seen))
    && (forall j | asked < j <= now :: AtMoment(serial, actions, j, w, PayoutClaim(p, seen, payee)))
  }

  /** The first step of w after that answer, at moment claimed, took this attempt of p. */
  ghost predicate ClaimedFor(serial: bool, actions: seq<Action>, asked: nat, claimed: nat, w: nat, p: nat, seen: Payout,
                             payee: Payee)
  {
    && Answered(serial, actions, asked, claimed, w, p, seen, payee) && claimed < |actions|
    && Took(serial, actions, claimed, Claim(w, p, seen.attempts + 1))
  }

  /** The run that claimed this attempt had been told to pay this account. */
  ghost predicate ToldToPay(serial: bool, actions: seq<Action>, p: nat, attempt: nat, account: BankAccount) {
    exists asked: nat, claimed: nat, w: nat, seen: Payout, payee: Payee ::
      ClaimedFor(serial, actions, asked, claimed, w, p, seen, payee)
      && attempt == seen.attempts + 1 && account == payee.account
  }

  // ---------------------------------------------------------------- what a worker carries

  ghost predicate Carries(serial: bool, actions: seq<Action>, recipients: map<string, BankAccount>, w: nat, pc: Pc) {
    match pc
    case PayoutClaim(p, seen, payee) =>
      exists asked: nat :: Answered(serial, actions, asked, |actions|, w, p, seen, payee)
    case PayoutRecipient(p, attempt, payee) => ToldToPay(serial, actions, p, attempt, payee.account)
    case PayoutRecipientSave(p, attempt, code) =>
      code in recipients && ToldToPay(serial, actions, p, attempt, recipients[code])
    case PayoutInitiate(p, attempt, code) =>
      code in recipients && ToldToPay(serial, actions, p, attempt, recipients[code])
    case _ => true
  }

  ghost predicate AllCarry(serial: bool, actions: seq<Action>) {
    var s := Run(serial, INITIAL, actions);
    && (forall w <- s.workers.Keys :: Carries(serial, actions, s.recipients, w, s.workers[w].pc))
    && (forall ref <- s.transfers.Keys :: ToldToPay(serial, actions, ref.payout, ref.attempt, s.transfers[ref].to))
  }

  lemma SamePast(serial: bool, actions: seq<Action>, a: Action, moment: nat, w: nat, pc: Pc)
    requires moment <= |actions|
    ensures AtMoment(serial, actions + [a], moment, w, pc) == AtMoment(serial, actions, moment, w, pc)
  {
    assert (actions + [a])[..moment] == actions[..moment];
  }

  lemma StaysAnswered(serial: bool, actions: seq<Action>, a: Action, asked: nat, now: nat, w: nat, p: nat, seen: Payout,
                      payee: Payee)
    requires Answered(serial, actions, asked, now, w, p, seen, payee)
    ensures Answered(serial, actions + [a], asked, now, w, p, seen, payee)
  {
    SamePast(serial, actions, a, asked, w, PayoutResolve(p, seen));
    forall j | asked < j <= now ensures AtMoment(serial, actions + [a], j, w, PayoutClaim(p, seen, payee)) {
      SamePast(serial, actions, a, j, w, PayoutClaim(p, seen, payee));
    }
  }

  lemma StaysTold(serial: bool, actions: seq<Action>, a: Action, p: nat, attempt: nat, account: BankAccount)
    requires ToldToPay(serial, actions, p, attempt, account)
    ensures ToldToPay(serial, actions + [a], p, attempt, account)
  {
    var asked: nat, claimed: nat, w: nat, seen: Payout, payee: Payee :|
      ClaimedFor(serial, actions, asked, claimed, w, p, seen, payee)
      && attempt == seen.attempts + 1 && account == payee.account;
    StaysAnswered(serial, actions, a, asked, claimed, w, p, seen, payee);
    assert (actions + [a])[..claimed] == actions[..claimed];
    assert (actions + [a])[..claimed + 1] == actions[..claimed + 1];
    assert Took(serial, actions + [a], claimed, Claim(w, p, seen.attempts + 1));
    assert ClaimedFor(serial, actions + [a], asked, claimed, w, p, seen, payee);
  }

  // ---------------------------------------------------------------- a worker's own step

  /** What a worker's step hands on: its place, the recipient codes and the claims before and after. */
  predicate HandsOn(w: nat, choice: Choice, pc: Pc, next: Pc, codes: map<string, BankAccount>,
                    after: map<string, BankAccount>, claims: seq<Claim>, more: seq<Claim>)
  {
    match next
    case PayoutClaim(p, seen, payee) => pc == PayoutResolve(p, seen) && choice.verdict == Send(payee)
    case PayoutRecipient(p, attempt, payee) =>
      && pc.PayoutClaim? && pc.p == p && pc.payee == payee && attempt == pc.seen.attempts + 1
      && more == claims + [Claim(w, p, attempt)]
    case PayoutRecipientSave(p, attempt, code) =>
      && pc.PayoutRecipient? && pc.p == p && pc.attempt == attempt
      && code in after && after[code] == pc.payee.account
    case PayoutInitiate(p, attempt, code) => pc == PayoutRecipientSave(p, attempt, code) && after == codes
    case _ => true
  }

  lemma StepHandsOn(s: State, w: nat, choice: Choice)
    requires w in s.workers && w in Step(s, w, choice).workers
    ensures var s' := Step(s, w, choice);
            HandsOn(w, choice, s.workers[w].pc, s'.workers[w].pc, s.recipients, s'.recipients, s.claims, s'.claims)
  {
    if !FromClaimOn(s.workers[w].pc) && !s.workers[w].pc.PayoutResolve? {
      ClaimsNothing(s, w, choice);
    }
  }

  /** Only resolving the destination leads to a claim. */
  lemma ClaimsNothing(s: State, w: nat, choice: Choice)
    requires w in s.workers && w in Step(s, w, choice).workers
    requires !FromClaimOn(s.workers[w].pc) && !s.workers[w].pc.PayoutResolve?
    ensures !FromClaimOn(Step(s, w, choice).workers[w].pc)
  {
    if !SingleTransfer.InPayoutRun(s.workers[w].pc) {
      SingleTransfer.StepServes(s, w, choice);
    }
  }

  lemma OwnStep(serial: bool, actions: seq<Action>, w: nat, choice: Choice)
    requires var s := Run(serial, INITIAL, actions);
             && w in s.workers && w in Step(s, w, choice).workers
             && Carries(serial, actions, s.recipients, w, s.workers[w].pc)
    ensures var s' := Step(Run(serial, INITIAL, actions), w, choice);
            Carries(serial, actions + [Advance(w, choice)], s'.recipients, w, s'.workers[w].pc)
  {
    var s := Run(serial, INITIAL, actions);
    var s' := Step(s, w, choice);
    StepHandsOn(s, w, choice);
    BeforeAndAfter(serial, actions, w, choice);
    CarriesOn(serial, actions, w, choice, s.workers[w].pc, s'.workers[w].pc, s.recipients, s'.recipients, s.claims,
              s'.claims);
  }

  /** The claims before and after the last action. */
  ghost predicate ClaimsWere(serial: bool, actions: seq<Action>, a: Action, claims: seq<Claim>, more: seq<Claim>) {
    forall start: State | start == INITIAL ::
      Run(serial, start, actions).claims == claims && Run(serial, start, actions + [a]).claims == more
  }

  lemma BeforeAndAfter(serial: bool, actions: seq<Action>, w: nat, choice: Choice)
    requires w in Run(serial, INITIAL, actions).workers
    requires w in Step(Run(serial, INITIAL, actions), w, choice).workers
    ensures var a, s := Advance(w, choice), Run(serial, INITIAL, actions);
            var s' := Step(s, w, choice);
            && AtMoment(serial, actions + [a], |actions|, w, s.workers[w].pc)
            && AtMoment(serial, actions + [a], |actions| + 1, w, s'.workers[w].pc)
            && ClaimsWere(serial, actions, a, s.claims, s'.claims)
  {
    var longer := actions + [Advance(w, choice)];
    RunOne(serial, actions, Advance(w, choice));
    assert longer[..|actions|] == actions && longer[..|actions| + 1] == longer;
  }

  lemma CarriesOn(serial: bool, actions: seq<Action>, w: nat, choice: Choice, pc: Pc, next: Pc,
                  codes: map<string, BankAccount>, after: map<string, BankAccount>, claims: seq<Claim>,
                  more: seq<Claim>)
    requires HandsOn(w, choice, pc, next, codes, after, claims, more) && Carries(serial, actions, codes, w, pc)
    requires var longer := actions + [Advance(w, choice)];
             && AtMoment(serial, longer, |actions|, w, pc) && AtMoment(serial, longer, |longer|, w, next)
             && ClaimsWere(serial, actions, Advance(w, choice), claims, more)
    ensures Carries(serial, actions + [Advance(w, choice)], after, w, next)
  {
    var a := Advance(w, choice);
    match next
    case PayoutClaim(p, seen, payee) => Asks(serial, actions, w, choice, p, seen, payee);
    case PayoutRecipient(p, attempt, payee) =>
      Claims(serial, actions, codes, a, claims, more, w, p, pc.seen, payee);
    case PayoutRecipientSave(p, attempt, code) => StaysTold(serial, actions, a, p, attempt, pc.payee.account);
    case PayoutInitiate(p, attempt, code) => StaysTold(serial, actions, a, p, attempt, codes[code]);
    case _ =>
  }

  lemma Asks(serial: bool, actions: seq<Action>, w: nat, choice: Choice, p: nat, seen: Payout, payee: Payee)
    requires choice.verdict == Send(payee)
    requires AtMoment(serial, actions + [Advance(w, choice)], |actions|, w, PayoutResolve(p, seen))
    requires AtMoment(serial, actions + [Advance(w, choice)], |actions| + 1, w, PayoutClaim(p, seen, payee))
    ensures Answered(serial, actions + [Advance(w, choice)], |actions|, |actions| + 1, w, p, seen, payee)
  {
  }

  lemma Takes(serial: bool, actions: seq<Action>, a: Action, claims: seq<Claim>, more: seq<Claim>, claim: Claim)
    requires ClaimsWere(serial, actions, a, claims, more) && more == claims + [claim]
    ensures Took(serial, actions + [a], |actions|, claim)
  {
    var longer := actions + [a];
    assert longer[..|actions|] == actions && longer[..|actions| + 1] == longer;
  }

  lemma RunOne(serial: bool, actions: seq<Action>, a: Action)
    ensures Run(serial, INITIAL, actions + [a]) == Apply(serial, Run(serial, INITIAL, actions), a)
  {
    assert (actions + [a])[..|actions|] == actions;
  }

  lemma Claims(serial: bool, actions: seq<Action>, recipients: map<string, BankAccount>, a: Action, claims: seq<Claim>,
               more: seq<Claim>, w: nat, p: nat, seen: Payout, payee: Payee)
    requires Carries(serial, actions, recipients, w, PayoutClaim(p, seen, payee))
    requires ClaimsWere(serial, actions, a, claims, more) && more == claims + [Claim(w, p, seen.attempts + 1)]
    ensures ToldToPay(serial, actions + [a], p, seen.attempts + 1, payee.account)
  {
    Takes(serial, actions, a, claims, more, Claim(w, p, seen.attempts + 1));
    var asked: nat :| Answered(serial, actions, asked, |actions|, w, p, seen, payee);
    StaysAnswered(serial, actions, a, asked, |actions|, w, p, seen, payee);
    assert ClaimedFor(serial, actions + [a], asked, |actions|, w, p, seen, payee);
  }

  // ---------------------------------------------------------------- everyone else

  lemma StillAnswered(serial: bool, actions: seq<Action>, a: Action, recipients: map<string, BankAccount>, v: nat,
                      p: nat, seen: Payout, payee: Payee)
    requires AtMoment(serial, actions + [a], |actions| + 1, v, PayoutClaim(p, seen, payee))
    requires Carries(serial, actions, recipients, v, PayoutClaim(p, seen, payee))
    ensures Carries(serial, actions + [a], recipients, v, PayoutClaim(p, seen, payee))
  {
    var asked: nat :| Answered(serial, actions, asked, |actions|, v, p, seen, payee);
    StaysAnswered(serial, actions, a, asked, |actions|, v, p, seen, payee);
    assert Answered(serial, actions + [a], asked, |actions| + 1, v, p, seen, payee);
  }

  /** A worker that takes no step carries what it carried. */
  lemma OtherCarries(serial: bool, actions: seq<Action>, a: Action, before: map<string, BankAccount>,
                     after: map<string, BankAccount>, v: nat, pc: Pc)
    requires Carries(serial, actions, before, v, pc) && AtMoment(serial, actions + [a], |actions| + 1, v, pc)
    requires forall code <- before.Keys :: code in after && after[code] == before[code]
    ensures Carries(serial, actions + [a], after, v, pc)
  {
    match pc
    case PayoutClaim(p, seen, payee) => StillAnswered(serial, actions, a, before, v, p, seen, payee);
    case PayoutRecipient(p, attempt, payee) => StaysTold(serial, actions, a, p, attempt, payee.account);
    case PayoutRecipientSave(p, attempt, code) => StaysTold(serial, actions, a, p, attempt, before[code]);
    case PayoutInitiate(p, attempt, code) => StaysTold(serial, actions, a, p, attempt, before[code]);
    case _ =>
  }

  /** A worker that has just begun carries nothing yet. */
  lemma BeginsEmpty(serial: bool, s: State, a: Action, v: nat)
    requires v !in s.workers && v in Apply(serial, s, a).workers
    ensures var pc := Apply(serial, s, a).workers[v].pc; pc.PayoutRead? || pc.EventRead? || pc.SettleRead?
  {
    if a.Advance? && a.w in s.workers {
      StepIsLocal(s, a.w, a.choice, v);
    }
  }

  lemma WorkersCarry(serial: bool, actions: seq<Action>, a: Action, v: nat)
    requires AllCarry(serial, actions) && v in Run(serial, INITIAL, actions + [a]).workers
    ensures var s' := Run(serial, INITIAL, actions + [a]);
            Carries(serial, actions + [a], s'.recipients, v, s'.workers[v].pc)
  {
    var s := Run(serial, INITIAL, actions);
    RunOne(serial, actions, a);
    if Steps(s, a, v) {
      OwnStep(serial, actions, v, a.choice);
    } else if v in s.workers {
      OtherWorkers(serial, s, a, v);
      Guarantees.RunExtends(serial, actions, actions + [a]);
      assert (actions + [a])[..|actions| + 1] == actions + [a];
      OtherCarries(serial, actions, a, s.recipients, Run(serial, INITIAL, actions + [a]).recipients, v,
                   s.workers[v].pc);
    } else {
      BeginsEmpty(serial, s, a, v);
    }
  }

  /** A transfer that was there before keeps its account; a new one goes to the account its code stands for. */
  lemma NewTransfer(serial: bool, s: State, a: Action, ref: Reference)
    requires ref in Apply(serial, s, a).transfers
    ensures var s' := Apply(serial, s, a);
            if ref in s.transfers then s'.transfers[ref].to == s.transfers[ref].to
            else
              && a.Advance? && a.w in s.workers && s.workers[a.w].pc.PayoutInitiate?
              && var pc := s.workers[a.w].pc;
                 ref == Reference(pc.p, pc.attempt)
                 && pc.code in s.recipients && s'.transfers[ref].to == s.recipients[pc.code]
  {
    if !(a.Advance? && a.w in s.workers && s.workers[a.w].pc.PayoutInitiate?) {
      TransfersOnlyMove(serial, s, a);
    }
  }

  lemma TransfersTold(serial: bool, actions: seq<Action>, a: Action, ref: Reference)
    requires AllCarry(serial, actions) && ref in Run(serial, INITIAL, actions + [a]).transfers
    ensures ToldToPay(serial, actions + [a], ref.payout, ref.attempt,
                      Run(serial, INITIAL, actions + [a]).transfers[ref].to)
  {
    var s := Run(serial, INITIAL, actions);
    RunOne(serial, actions, a);
    NewTransfer(serial, s, a, ref);
    if ref !in s.transfers {
      assert Carries(serial, actions, s.recipients, a.w, s.workers[a.w].pc);
    }
    StaysTold(serial, actions, a, ref.payout, ref.attempt, Run(serial, INITIAL, actions + [a]).transfers[ref].to);
  }

  lemma {:induction false} AlwaysCarry(serial: bool, actions: seq<Action>)
    ensures AllCarry(serial, actions)
  {
    if |actions| > 0 {
      var shorter, a := actions[..|actions| - 1], actions[|actions| - 1];
      assert actions == shorter + [a];
      AlwaysCarry(serial, shorter);
      var s := Run(serial, INITIAL, actions);
      forall v <- s.workers.Keys ensures Carries(serial, actions, s.recipients, v, s.workers[v].pc) {
        WorkersCarry(serial, shorter, a, v);
      }
      forall ref <- s.transfers.Keys
        ensures ToldToPay(serial, actions, ref.payout, ref.attempt, s.transfers[ref].to) {
        TransfersTold(serial, shorter, a, ref);
      }
    }
  }

  /** Every transfer of every run: an attempt that was claimed, exactly once, by a run which the gate had told, with no
      step of its own in between, to pay the account the transfer goes to. Nothing that happens to the onboarding
      tables after that answer, or to other attempts, redirects it. */
  lemma TransfersGoWhereTheGateSaid(serial: bool, actions: seq<Action>, ref: Reference)
    requires ref in Run(serial, INITIAL, actions).transfers
    ensures ToldToPay(serial, actions, ref.payout, ref.attempt, Run(serial, INITIAL, actions).transfers[ref].to)
  {
    AlwaysCarry(serial, actions);
  }

  // ---------------------------------------------------------------- one answer per attempt

  lemma {:induction false} ClaimsOnlyGrow(serial: bool, s: State, actions: seq<Action>)
    ensures s.claims <= Run(serial, s, actions).claims
  {
    if |actions| > 0 {
      ClaimsOnlyGrow(serial, s, actions[..|actions| - 1]);
      ClaimsGrow(serial, Run(serial, s, actions[..|actions| - 1]), actions[|actions| - 1]);
    }
  }

  lemma ClaimsGrow(serial: bool, s: State, a: Action)
    ensures s.claims <= Apply(serial, s, a).claims
  {
    if a.Advance? && a.w in s.workers && !s.workers[a.w].pc.PayoutClaim? {
      LeavesClaims(s, a.w, a.choice);
    }
  }

  lemma LeavesClaims(s: State, w: nat, choice: Choice)
    requires w in s.workers && !s.workers[w].pc.PayoutClaim?
    ensures Step(s, w, choice).claims == s.claims
  {
    if !Posts(s.workers[w].pc) && !WritesPayout(s.workers[w].pc) {
      Quiet(s, w, choice);
    }
  }

  ghost predicate InOrder(claims: seq<Claim>, x: Claim, y: Claim) {
    exists k, l | 0 <= k < l < |claims| :: claims[k] == x && claims[l] == y
  }

  /** Claims stand in the order they were made. */
  lemma ClaimsInOrder(serial: bool, actions: seq<Action>, i: nat, j: nat, x: Claim, y: Claim)
    requires i < j < |actions| && Took(serial, actions, i, x) && Took(serial, actions, j, y)
    ensures InOrder(Run(serial, INITIAL, actions[..j + 1]).claims, x, y)
  {
    var earlier, later := Run(serial, INITIAL, actions[..i + 1]).claims, Run(serial, INITIAL, actions[..j]).claims;
    ClaimsLater(serial, actions, i + 1, j);
    var claims := Run(serial, INITIAL, actions[..j + 1]).claims;
    assert claims == later + [y];
    assert earlier == Run(serial, INITIAL, actions[..i]).claims + [x];
    var k, l := |earlier| - 1, |later|;
    assert earlier[k] == x && later[k] == earlier[k];
    assert 0 <= k < l < |claims| && claims[k] == x && claims[l] == y;
  }

  lemma ClaimsLater(serial: bool, actions: seq<Action>, i: nat, j: nat)
    requires i <= j <= |actions|
    ensures Run(serial, INITIAL, actions[..i]).claims <= Run(serial, INITIAL, actions[..j]).claims
  {
    assert actions[..j] == actions[..i] + actions[i..j];
    RunConcat(serial, INITIAL, actions[..i], actions[i..j]);
    ClaimsOnlyGrow(serial, Run(serial, INITIAL, actions[..i]), actions[i..j]);
  }

  lemma ClaimedOnce(serial: bool, actions: seq<Action>, i: nat, j: nat, p: nat, v: nat, w: nat, seen: Payout,
                    again: Payout, payee: Payee, other: Payee, asked: nat, askedAgain: nat)
    requires ClaimedFor(serial, actions, asked, i, v, p, seen, payee)
    requires ClaimedFor(serial, actions, askedAgain, j, w, p, again, other)
    requires seen.attempts == again.attempts
    ensures i >= j
  {
    if i < j {
      var attempt := seen.attempts + 1;
      ClaimsInOrder(serial, actions, i, j, Claim(v, p, attempt), Claim(w, p, attempt));
      ClaimedRowExists(serial, actions, askedAgain, j, w, p, again, other);
      Guarantees.ClaimsAreSingleUse(serial, actions[..j + 1], p);
    }
  }

  lemma ClaimedRowExists(serial: bool, actions: seq<Action>, asked: nat, claimed: nat, w: nat, p: nat, seen: Payout,
                         payee: Payee)
    requires ClaimedFor(serial, actions, asked, claimed, w, p, seen, payee)
    ensures HasPayout(Run(serial, INITIAL, actions[..claimed + 1]), p)
  {
    Guarantees.AlwaysInv(serial, actions[..claimed]);
    assert AtMoment(serial, actions, claimed, w, PayoutClaim(p, seen, payee));
    assert WorkerOk(Run(serial, INITIAL, actions[..claimed]), Run(serial, INITIAL, actions[..claimed]).workers[w]);
    Guarantees.RunExtends(serial, actions[..claimed], actions[..claimed + 1]);
  }

  /** No two answers compete for one attempt: the account an attempt may be paid to is unique. */
  lemma ToldOnce(serial: bool, actions: seq<Action>, p: nat, attempt: nat, x: BankAccount, y: BankAccount)
    requires ToldToPay(serial, actions, p, attempt, x) && ToldToPay(serial, actions, p, attempt, y)
    ensures x == y
  {
    var asked: nat, i: nat, v: nat, seen: Payout, payee: Payee :|
      ClaimedFor(serial, actions, asked, i, v, p, seen, payee) && attempt == seen.attempts + 1 && x == payee.account;
    var askedAgain: nat, j: nat, w: nat, again: Payout, other: Payee :|
      ClaimedFor(serial, actions, askedAgain, j, w, p, again, other)
      && attempt == again.attempts + 1 && y == other.account;
    ClaimedOnce(serial, actions, i, j, p, v, w, seen, again, payee, other, asked, askedAgain);
    ClaimedOnce(serial, actions, j, i, p, w, v, again, seen, other, payee, askedAgain, asked);
    SameAnswer(serial, actions, i, p, v, w, seen, again, payee, other, asked, askedAgain);
  }

  lemma SameAnswer(serial: bool, actions: seq<Action>, i: nat, p: nat, v: nat, w: nat, seen: Payout, again: Payout,
                   payee: Payee, other: Payee, asked: nat, askedAgain: nat)
    requires ClaimedFor(serial, actions, asked, i, v, p, seen, payee)
    requires ClaimedFor(serial, actions, askedAgain, i, w, p, again, other)
    requires seen.attempts == again.attempts
    ensures payee == other
  {
    OnePlace(serial, actions, i, v, w, PayoutClaim(p, seen, payee), PayoutClaim(p, again, other), p,
             seen.attempts + 1);
  }

  lemma OnePlace(serial: bool, actions: seq<Action>, moment: nat, v: nat, w: nat, x: Pc, y: Pc, p: nat, attempt: nat)
    requires moment < |actions| && AtMoment(serial, actions, moment, v, x) && AtMoment(serial, actions, moment, w, y)
    requires Took(serial, actions, moment, Claim(v, p, attempt)) && Took(serial, actions, moment, Claim(w, p, attempt))
    ensures x == y
  {
    var before, after := Run(serial, INITIAL, actions[..moment]), Run(serial, INITIAL, actions[..moment + 1]);
    assert after.claims == before.claims + [Claim(v, p, attempt)];
    assert after.claims == before.claims + [Claim(w, p, attempt)];
    assert after.claims[|before.claims|] == Claim(v, p, attempt) == Claim(w, p, attempt);
  }
}
