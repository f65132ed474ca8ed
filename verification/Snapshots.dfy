/** Payments are divided by the rule in force when they were initialized, whatever happens to the rules since. */
module Snapshots {
  import opened Wrappers
  import opened Ledger
  import Tables
  import opened Protocol
  import Guarantees
  import opened SplitRules
  import opened SplitRuleHistory

  /** The shares of the rules table, as settlement reads them. */
  function Shares(rules: seq<SplitRule>): seq<Split> {
    seq(|rules|, r requires 0 <= r < |rules| => rules[r].split)
  }

  /** Rule operations only ever append to the shares. */
  lemma {:induction false} SharesOnlyGrow(ops: seq<Timed>, more: seq<Timed>)
    requires Monotone(ops + more)
    ensures Shares(RunRules(ops).rules) <= Shares(RunRules(ops + more).rules)
  {
    TermsNeverChange(ops, more);
  }

  /** A stored payment keeps its terms and its rule, and the rules table only grows. */
  lemma QuoteStays(serial: bool, before: seq<Action>, terms: PaymentForPosting, r: nat, checkoutOpened: bool,
                   later: seq<Action>)
    ensures var a, t := Run(serial, INITIAL, before).books, |Run(serial, INITIAL, before).books.payments|;
            var b := Run(serial, INITIAL, before + [NewPayment(terms, Some(r), checkoutOpened)] + later).books;
            && t < |b.payments| && b.payments[t].terms == terms && b.payments[t].splitRuleId == Some(r)
            && a.rules <= b.rules
  {
    var quote := before + [NewPayment(terms, Some(r), checkoutOpened)];
    assert quote[..|quote| - 1] == before;
    Guarantees.RunExtends(serial, quote, quote + later);
    Guarantees.RunExtends(serial, before, quote + later);
  }

  /** Rule r was the venue's active one when it was looked up for this payment (after ops); whatever has happened to
      the rules by the time the payment is stored (after before), and whatever happens to them later: if the payment is
      ever settled, under any interleaving, its only settlement posting divides it by the shares r had when it was
      looked up. */
  lemma SettledByTheRuleInForce(ops: seq<Timed>, r: nat, terms: PaymentForPosting, serial: bool,
                                before: seq<Action>, checkoutOpened: bool, later: seq<Action>)
    requires Monotone(ops) && IsActive(RunRules(ops).rules, terms.venueId, r)
    requires Shares(RunRules(ops).rules) <= Run(serial, INITIAL, before).books.rules
    ensures var rules, t := RunRules(ops).rules, |Run(serial, INITIAL, before).books.payments|;
            var b := Run(serial, INITIAL, before + [NewPayment(terms, Some(r), checkoutOpened)] + later).books;
            && ValidSplit(rules[r].split)
            && (forall instant | instant >= Clock(ops) :: InForceAt(rules, terms.venueId, instant, r))
            && t < |b.payments|
            && (Tables.IsSettled(b, t) ==> Tables.SettlementsOf(b.journal, t) == [PaymentLines(terms, rules[r].split)])
  {
    var actions := before + [NewPayment(terms, Some(r), checkoutOpened)] + later;
    var t := |Run(serial, INITIAL, before).books.payments|;
    RunIsOk(ops);
    assert ShapeOk(RunRules(ops).rules[r], Clock(ops));
    QuoteStays(serial, before, terms, r, checkoutOpened, later);
    Guarantees.SettledExactlyOnce(serial, actions, t);
    assert Shares(RunRules(ops).rules)[r] == Run(serial, INITIAL, actions).books.rules[r];
  }
}
