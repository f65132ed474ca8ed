/** What the service promises, stated over every run from the empty system. None of these needs serial runs. */
module Guarantees {
  import opened Wrappers
  import opened Ledger
  import opened Tables
  import opened Protocol
  import opened Safety

  lemma {:induction false} AlwaysInv(serial: bool, actions: seq<Action>)
    ensures Inv(Run(serial, INITIAL, actions))
  {
    InitialInv();
    Reachable(serial, INITIAL, actions);
  }

  // ---------------------------------------------------------------- the ledger and the payout table

  /** Whatever interleaved, each payable balance is the sum of its unpaid payouts, so it is never negative. */
  lemma LedgerAgreesWithPayouts(serial: bool, actions: seq<Action>, account: Account)
    requires IsPayable(account.kind)
    ensures var b := Run(serial, INITIAL, actions).books;
            Balance(b, account) == Owed(b.payouts, account) >= 0
  {
    AlwaysInv(serial, actions);
    var b := Run(serial, INITIAL, actions).books;
    forall p | 0 <= p < |b.payouts| ensures b.payouts[p].amountKobo > 0 {
      assert PayoutOk(b, p);
    }
    OwedIsNotNegative(b.payouts, account);
  }

  lemma {:induction false} OwedIsNotNegative(payouts: seq<Payout>, account: Account)
    requires forall row <- payouts :: row.amountKobo > 0
    ensures Owed(payouts, account) >= 0
  {
    if |payouts| > 0 {
      OwedIsNotNegative(payouts[..|payouts| - 1], account);
    }
  }

  function Count(moves: seq<Direction>, direction: Direction): nat {
    if |moves| == 0 then 0
    else Count(moves[..|moves| - 1], direction) + if moves[|moves| - 1] == direction then 1 else 0
  }

  lemma {:induction false} AlternatingCount(moves: seq<Direction>)
    requires Alternates(moves)
    ensures Count(moves, Debit) - Count(moves, Credit) == |moves| % 2
  {
    if |moves| > 0 {
      AlternatingCount(moves[..|moves| - 1]);
    }
  }

  /** Payout postings minus reversal postings of a payout is 1 exactly while it is SUCCESS, and these postings
      are the payout's own lines: its account, its amount, its payment. SUCCESS means the provider reported the
      current reference successful at some time. */
  lemma {:induction false} PostedExactlyOnce(serial: bool, actions: seq<Action>, p: nat)
    requires HasPayout(Run(serial, INITIAL, actions), p)
    ensures var s := Run(serial, INITIAL, actions); var row := s.books.payouts[p];
            var moves := MovesOf(s.books.journal, row.transactionId, row.account);
            && Count(moves, Debit) - Count(moves, Credit) == (if row.status == PayoutStatus.SUCCESS then 1 else 0)
            && (forall po <- s.books.journal ::
                  po.transactionId == row.transactionId && |po.entries| > 0 && po.entries[0].account == row.account
                  ==> MovesPayout(po, row))
            && (row.status == PayoutStatus.SUCCESS ==>
                  row.transferReference == Some(Reference(p, row.attempts))
                      && Reference(p, row.attempts) in s.everDelivered)
  {
    AlwaysInv(serial, actions);
    var s := Run(serial, INITIAL, actions);
    var row := s.books.payouts[p];
    assert PayoutOk(s.books, p);
    AlternatingCount(MovesOf(s.books.journal, row.transactionId, row.account));
    forall po <- s.books.journal | po.transactionId == row.transactionId && |po.entries| > 0
        && po.entries[0].account == row.account
      ensures MovesPayout(po, row)
    {
      OwnPosting(s.books, po, p);
    }
  }

  lemma OwnPosting(b: Books, po: Posting, p: nat)
    requires Consistent(b) && po in b.journal && p < |b.payouts|
    requires po.transactionId == b.payouts[p].transactionId
    requires |po.entries| > 0 && po.entries[0].account == b.payouts[p].account
    ensures MovesPayout(po, b.payouts[p])
  {
    assert PostingOk(b, po) && PayoutOk(b, p);
    assert SplitLines(b, b.payments[po.transactionId]) != Ok(po.entries);
    var row :| row in b.payouts && MovesPayout(po, row);
    var i :| 0 <= i < |b.payouts| && b.payouts[i] == row;
    assert row.account == po.entries[0].account;
    assert i == p;
  }

  // ---------------------------------------------------------------- settlement

  /** A SUCCESS payment has exactly one settlement posting, the division by its own rule, and exactly one payout
      per payable credit, same account and amount; any other payment has none. SUCCESS means it was paid in full. */
  lemma {:induction false} SettledExactlyOnce(serial: bool, actions: seq<Action>, t: nat)
    requires t < |Run(serial, INITIAL, actions).books.payments|
    ensures var s := Run(serial, INITIAL, actions); var b := s.books;
            if IsSettled(b, t)
            then var lines := SplitLines(b, b.payments[t]);
                 && lines.Ok? && SettlementsOf(b.journal, t) == [lines.value]
                 && ObligationsOf(b.payouts, t) == Obligations(lines.value)
                 && t < |s.charges| && ChargeMatches(s.charges[t], b.payments[t])
            else
              && SettlementsOf(b.journal, t) == [] && ObligationsOf(b.payouts, t) == []
              && forall po <- b.journal :: po.transactionId != t
  {
    AlwaysInv(serial, actions);
    var s := Run(serial, INITIAL, actions);
    assert PaymentOk(s.books, t);
    forall po <- s.books.journal ensures IsSettled(s.books, po.transactionId) {
      assert PostingOk(s.books, po);
    }
  }

  /** The unique index on (account, payment) never rejects a settlement. */
  lemma UniqueIndexNeverFires(serial: bool, actions: seq<Action>, i: nat, j: nat)
    requires i < j < |Run(serial, INITIAL, actions).books.payouts|
    ensures var payouts := Run(serial, INITIAL, actions).books.payouts;
            (payouts[i].account, payouts[i].transactionId) != (payouts[j].account, payouts[j].transactionId)
  {
    AlwaysInv(serial, actions);
  }

  lemma {:induction false} RunGrows(serial: bool, s: State, actions: seq<Action>)
    requires Inv(s)
    ensures StateExtends(s, Run(serial, s, actions))
  {
    if |actions| > 0 {
      var before := Run(serial, s, actions[..|actions| - 1]);
      RunGrows(serial, s, actions[..|actions| - 1]);
      Reachable(serial, s, actions[..|actions| - 1]);
      Grows(serial, before, actions[|actions| - 1]);
      ExtendsTransitive(s, before, Run(serial, s, actions));
    }
  }

  /** Between any two moments of a run, obligations, attempts, settled payments, postings and deliveries only grow. */
  lemma {:induction false} RunExtends(serial: bool, older: seq<Action>, newer: seq<Action>)
    requires older <= newer
    ensures StateExtends(Run(serial, INITIAL, older), Run(serial, INITIAL, newer))
  {
    AlwaysInv(serial, older);
    assert newer == older + newer[|older|..];
    RunConcat(serial, INITIAL, older, newer[|older|..]);
    RunGrows(serial, Run(serial, INITIAL, older), newer[|older|..]);
  }

  lemma ExtendsTransitive(s: State, s': State, s'': State)
    requires StateExtends(s, s') && StateExtends(s', s'')
    ensures StateExtends(s, s'')
  {
  }

  /** Whatever happens later, SUCCESS is never left, the posted division never changes, and no posting is lost. */
  lemma SettlementIsFinal(serial: bool, actions: seq<Action>, later: seq<Action>, t: nat)
    requires IsSettled(Run(serial, INITIAL, actions).books, t)
    ensures var b, c := Run(serial, INITIAL, actions).books, Run(serial, INITIAL, actions + later).books;
            && IsSettled(c, t) && SplitLines(c, c.payments[t]) == SplitLines(b, b.payments[t])
            && SettlementsOf(c.journal, t) == SettlementsOf(b.journal, t)
            && b.journal <= c.journal
  {
    AlwaysInv(serial, actions);
    RunConcat(serial, INITIAL, actions, later);
    RunGrows(serial, Run(serial, INITIAL, actions), later);
    SettledExactlyOnce(serial, actions, t);
    SettledExactlyOnce(serial, actions + later, t);
  }

  function Rank(status: PaymentStatus): nat {
    match status
    case CREATED => 0
    case PENDING => 1
    case SUCCESS => 3
    case _ => 2
  }

  /** How often a payment's status changed along a run. */
  function StatusChanges(serial: bool, actions: seq<Action>, t: nat): nat {
    if |actions| == 0 then 0
    else
      var shorter := actions[..|actions| - 1];
      var before, after := Run(serial, INITIAL, shorter).books, Run(serial, INITIAL, actions).books;
      StatusChanges(serial, shorter, t)
      + if t < |before.payments| && t < |after.payments| && after.payments[t].status != before.payments[t].status
        then 1 else 0
  }

  lemma StatusOnlyClimbs(serial: bool, s: State, a: Action, t: nat)
    requires WorkersOk(s) && t < |s.books.payments|
    ensures var b, c := s.books, Apply(serial, s, a).books;
            && t < |c.payments|
            && (c.payments[t].status == b.payments[t].status || Rank(c.payments[t].status) > Rank(b.payments[t].status))
  {
    if a.Advance? && a.w in s.workers {
      assert WorkerOk(s, s.workers[a.w]);
      if WritesPayout(s.workers[a.w].pc) {
        WritesKeepPayments(s, a.w, a.choice);
      } else if !Posts(s.workers[a.w].pc) {
        Quiet(s, a.w, a.choice);
      }
    }
  }

  lemma WritesKeepPayments(s: State, w: nat, choice: Choice)
    requires w in s.workers && WritesPayout(s.workers[w].pc)
    ensures Step(s, w, choice).books.payments == s.books.payments
  {
  }

  /** Each payment changes status at most three times, however many callers race to settle it. */
  lemma {:induction false} AtMostThreeStatusChanges(serial: bool, actions: seq<Action>, t: nat)
    ensures var b := Run(serial, INITIAL, actions).books;
            StatusChanges(serial, actions, t) <= if t < |b.payments| then Rank(b.payments[t].status) else 0
    ensures StatusChanges(serial, actions, t) <= 3
  {
    if |actions| > 0 {
      var shorter := actions[..|actions| - 1];
      AtMostThreeStatusChanges(serial, shorter, t);
      AlwaysInv(serial, shorter);
      if t < |Run(serial, INITIAL, shorter).books.payments| {
        StatusOnlyClimbs(serial, Run(serial, INITIAL, shorter), actions[|actions| - 1], t);
      }
    }
  }

  // ---------------------------------------------------------------- claims and references

  lemma {:induction false} ClaimsIncrease(claims: seq<Claim>, p: nat, n: nat, j: nat)
    requires ClaimsFor(claims, p) == UpTo(n) && j < |claims| && claims[j].payout == p
    ensures 1 <= claims[j].attempt <= n
    ensures forall i | 0 <= i < j && claims[i].payout == p :: claims[i].attempt < claims[j].attempt
  {
    var last := claims[|claims| - 1];
    var shorter := claims[..|claims| - 1];
    if last.payout == p {
      assert UpTo(n) == ClaimsFor(shorter, p) + [last.attempt];
      assert |ClaimsFor(shorter, p)| == n - 1 && last.attempt == UpTo(n)[n - 1] == n;
      assert ClaimsFor(shorter, p) == UpTo(n)[..n - 1] == UpTo(n - 1);
      if j < |shorter| {
        ClaimsIncrease(shorter, p, n - 1, j);
      } else {
        forall i | 0 <= i < j && claims[i].payout == p ensures claims[i].attempt < claims[j].attempt {
          ClaimsIncrease(shorter, p, n - 1, i);
        }
      }
    } else {
      ClaimsIncrease(shorter, p, n, j);
    }
  }

  /** Each attempt of a payout is claimed by at most one worker, and attempts counts the claims. */
  lemma {:induction false} ClaimsAreSingleUse(serial: bool, actions: seq<Action>, p: nat)
    requires HasPayout(Run(serial, INITIAL, actions), p)
    ensures var s := Run(serial, INITIAL, actions); var row := s.books.payouts[p];
            && ClaimsFor(s.claims, p) == UpTo(row.attempts)
            && row.transferReference == CurrentReference(p, row.attempts)
            && forall i, j | 0 <= i < j < |s.claims| && s.claims[i].payout == s.claims[j].payout == p ::
                 s.claims[i].attempt < s.claims[j].attempt
  {
    AlwaysInv(serial, actions);
    var s := Run(serial, INITIAL, actions);
    assert PayoutOk(s.books, p);
    assert ClaimsFor(s.claims, p) == UpTo(s.books.payouts[p].attempts);
    forall j | 0 <= j < |s.claims| && s.claims[j].payout == p
      ensures forall i | 0 <= i < j && s.claims[i].payout == p :: s.claims[i].attempt < s.claims[j].attempt
    {
      ClaimsIncrease(s.claims, p, s.books.payouts[p].attempts, j);
    }
  }

  lemma {:induction false} FindsAny(payouts: seq<Payout>, p: nat, ref: Reference)
    requires p < |payouts| && payouts[p].transferReference == Some(ref)
    ensures FindByReference(payouts, ref).Some?
  {
    if payouts[|payouts| - 1].transferReference != Some(ref) {
      FindsAny(payouts[..|payouts| - 1], p, ref);
    }
  }

  /** An event finds its payout exactly when it names the current attempt; superseded references match nothing. */
  lemma EventsMatchCurrentReference(serial: bool, actions: seq<Action>, ref: Reference, p: nat)
    ensures var s := Run(serial, INITIAL, actions);
            FindByReference(s.books.payouts, ref) == Some(p)
            <==> HasPayout(s, p) && ref == Reference(p, s.books.payouts[p].attempts) && ref.attempt > 0
  {
    AlwaysInv(serial, actions);
    var s := Run(serial, INITIAL, actions);
    Found(s.books.payouts, ref);
    var found := FindByReference(s.books.payouts, ref);
    if found.Some? {
      assert PayoutOk(s.books, found.value);
    }
    if HasPayout(s, p) && ref == Reference(p, s.books.payouts[p].attempts) && ref.attempt > 0 {
      assert PayoutOk(s.books, p);
      FindsAny(s.books.payouts, p, ref);
    }
  }
}
