/** However deliveries, retries and polls overlap: a settlement call that runs to its end leaves the payment settled. */
module Completion {
  import opened Wrappers
  import opened Ledger
  import opened Tables
  import opened Protocol
  import opened Safety
  import Guarantees

  /** The worker is settling payment t and has not given up. */
  predicate Settling(pc: Pc, t: nat, payment: Payment) {
    match pc
    case SettleRead(u) => u == t
    case SettleVerify(u, quoted) => u == t && SameQuote(quoted, payment)
    case SettleRule(u, quoted) => u == t && SameQuote(quoted, payment)
    case SettleCommit(u, _) => u == t
    case _ => false
  }

  /** The provider reports a matching success that can be divided. */
  predicate Payable(s: State, t: nat, lines: seq<EntrySpec>) {
    && t < |s.books.payments| && t < |s.charges|
    && ChargeMatches(s.charges[t], s.books.payments[t]) && SplitLines(s.books, s.books.payments[t]) == Ok(lines)
  }

  predicate OnItsWay(s: State, w: nat, t: nat) {
    && t < |s.books.payments|
    && (|| IsSettled(s.books, t)
        || (&& IsSettleable(s.books.payments[t].status)
            && w in s.workers && Settling(s.workers[w].pc, t, s.books.payments[t])))
  }

  lemma StaysPayable(serial: bool, s: State, a: Action, t: nat, lines: seq<EntrySpec>)
    requires Inv(s) && Payable(s, t, lines)
    ensures Payable(Apply(serial, s, a), t, lines)
  {
    Grows(serial, s, a);
    var s' := Apply(serial, s, a);
    assert s'.charges[t] == s.charges[t];
    assert s'.books.payments[t].splitRuleId == s.books.payments[t].splitRuleId;
    assert s.books.rules <= s'.books.rules;
  }

  /** The worker's own step brings it closer. */
  lemma OwnStepSettles(s: State, w: nat, choice: Choice, t: nat, lines: seq<EntrySpec>)
    requires Payable(s, t, lines) && OnItsWay(s, w, t) && !IsSettled(s.books, t)
    ensures OnItsWay(Step(s, w, choice), w, t)
  {
  }

  /** A payment only ever becomes pending, failed or settled. */
  lemma StatusStays(serial: bool, s: State, a: Action, t: nat)
    requires WorkersOk(s) && t < |s.books.payments|
    requires IsSettled(s.books, t) || IsSettleable(s.books.payments[t].status)
    ensures var c := Apply(serial, s, a).books;
            t < |c.payments| && (IsSettled(c, t) || IsSettleable(c.payments[t].status))
  {
    if a.Advance? && a.w in s.workers {
      assert WorkerOk(s, s.workers[a.w]);
      if Posts(s.workers[a.w].pc) {
        StatusStaysPosting(s, a.w, a.choice, t);
      } else {
        LeavesPayments(s, a.w, a.choice);
      }
    }
  }

  lemma StatusStaysPosting(s: State, w: nat, choice: Choice, t: nat)
    requires w in s.workers && WorkerOk(s, s.workers[w]) && Posts(s.workers[w].pc) && t < |s.books.payments|
    requires IsSettled(s.books, t) || IsSettleable(s.books.payments[t].status)
    ensures var c := Step(s, w, choice).books;
            t < |c.payments| && (IsSettled(c, t) || IsSettleable(c.payments[t].status))
  {
  }

  lemma StaysAtWork(serial: bool, s: State, a: Action, w: nat)
    requires w in s.workers && !Steps(s, a, w) && a != Crash(w)
    ensures w in Apply(serial, s, a).workers && Apply(serial, s, a).workers[w] == s.workers[w]
  {
    if a.Advance? && a.w in s.workers {
      StepIsLocal(s, a.w, a.choice, w);
    }
  }

  lemma KeepsGoing(serial: bool, s: State, a: Action, w: nat, t: nat, lines: seq<EntrySpec>)
    requires Inv(s) && Payable(s, t, lines) && OnItsWay(s, w, t) && a != Crash(w)
    ensures OnItsWay(Apply(serial, s, a), w, t)
  {
    Grows(serial, s, a);
    if !IsSettled(s.books, t) {
      if a.Advance? && a.w == w {
        OwnStepSettles(s, w, a.choice, t, lines);
      } else {
        StatusStays(serial, s, a, t);
        StaysAtWork(serial, s, a, w);
      }
    }
  }

  lemma {:induction false} GoesOn(serial: bool, s: State, during: seq<Action>, w: nat, t: nat, lines: seq<EntrySpec>)
    requires Inv(s) && Payable(s, t, lines) && OnItsWay(s, w, t) && Crash(w) !in during
    ensures var s' := Run(serial, s, during); Inv(s') && Payable(s', t, lines) && OnItsWay(s', w, t)
  {
    if |during| > 0 {
      var shorter, last := during[..|during| - 1], during[|during| - 1];
      assert last in during;
      GoesOn(serial, s, shorter, w, t, lines);
      var before := Run(serial, s, shorter);
      Keeps(serial, before, last);
      StaysPayable(serial, before, last, t, lines);
      KeepsGoing(serial, before, last, w, t, lines);
    }
  }

  /** The provider reports a matching success. Whatever else happens while a settlement call runs, once it has ended
      without an exception the payment is settled, and ledger and payouts hold for it exactly what a single
      undisturbed settlement would have written. */
  lemma FinishedCallHasSettled(serial: bool, history: seq<Action>, w: nat, t: nat, during: seq<Action>,
                               lines: seq<EntrySpec>)
    requires var s := Run(serial, INITIAL, history);
             && w !in s.workers && Payable(s, t, lines)
             && (IsSettled(s.books, t) || IsSettleable(s.books.payments[t].status))
    requires Crash(w) !in during
    requires w !in Run(serial, INITIAL, history + [StartSettle(w, t)] + during).workers
    ensures var b := Run(serial, INITIAL, history + [StartSettle(w, t)] + during).books;
            && IsSettled(b, t) && SettlementsOf(b.journal, t) == [lines]
            && ObligationsOf(b.payouts, t) == Obligations(lines)
  {
    var begun := history + [StartSettle(w, t)];
    CallBegins(serial, history, w, t, lines);
    GoesOn(serial, Run(serial, INITIAL, begun), during, w, t, lines);
    RunConcat(serial, INITIAL, begun, during);
    SettledMeansDivided(serial, begun + during, t, lines);
  }

  lemma CallBegins(serial: bool, history: seq<Action>, w: nat, t: nat, lines: seq<EntrySpec>)
    requires var s := Run(serial, INITIAL, history);
             && w !in s.workers && Payable(s, t, lines)
             && (IsSettled(s.books, t) || IsSettleable(s.books.payments[t].status))
    ensures var s := Run(serial, INITIAL, history + [StartSettle(w, t)]);
            Inv(s) && Payable(s, t, lines) && OnItsWay(s, w, t)
  {
    Guarantees.AlwaysInv(serial, history + [StartSettle(w, t)]);
    RunOne(serial, history, StartSettle(w, t));
    Starts(serial, Run(serial, INITIAL, history), w, t, lines);
  }

  lemma RunOne(serial: bool, history: seq<Action>, a: Action)
    ensures Run(serial, INITIAL, history + [a]) == Apply(serial, Run(serial, INITIAL, history), a)
  {
    assert (history + [a])[..|history|] == history;
  }

  lemma Starts(serial: bool, s: State, w: nat, t: nat, lines: seq<EntrySpec>)
    requires w !in s.workers && Payable(s, t, lines)
    requires IsSettled(s.books, t) || IsSettleable(s.books.payments[t].status)
    ensures var s' := Apply(serial, s, StartSettle(w, t)); Payable(s', t, lines) && OnItsWay(s', w, t)
  {
  }

  lemma SettledMeansDivided(serial: bool, actions: seq<Action>, t: nat, lines: seq<EntrySpec>)
    requires var s := Run(serial, INITIAL, actions); Payable(s, t, lines) && IsSettled(s.books, t)
    ensures var b := Run(serial, INITIAL, actions).books;
            SettlementsOf(b.journal, t) == [lines] && ObligationsOf(b.payouts, t) == Obligations(lines)
  {
    Guarantees.SettledExactlyOnce(serial, actions, t);
  }
}
