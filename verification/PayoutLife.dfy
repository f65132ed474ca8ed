/** The life of a payout: every way its status, its attempts and its postings can change, in any run. */
module PayoutLife {
  import opened Wrappers
  import opened Ledger
  import opened Tables
  import opened Protocol
  import opened Safety
  import opened PayoutCases
  import Guarantees

  /** The statuses one step may lead to. QUEUED is entered only by a hold, PROCESSING only by a claim; FAILED is left
      only by a person's retry or by an event, SUCCESS only by a reversal. */
  predicate MayFollow(x: PayoutStatus, y: PayoutStatus) {
    match x
    case QUEUED => y in {QUEUED, PROCESSING, RETRYING, PayoutStatus.FAILED, PayoutStatus.SUCCESS}
    case PROCESSING => y in {QUEUED, PROCESSING, RETRYING, PayoutStatus.FAILED, PayoutStatus.SUCCESS}
    case RETRYING => y in {QUEUED, PROCESSING, RETRYING, PayoutStatus.FAILED, PayoutStatus.SUCCESS}
    case FAILED => y in {PayoutStatus.FAILED, RETRYING, PayoutStatus.SUCCESS}
    case SUCCESS => y in {PayoutStatus.SUCCESS, RETRYING}
    case CANCELLED => false
  }

  /** One step of a payout's row: the status moves as above, and a new attempt is claimed exactly when an open payout
      becomes PROCESSING under its next number. */
  predicate RowMoves(p: nat, x: Payout, y: Payout) {
    && SameObligation(x, y) && MayFollow(x.status, y.status)
    && (y.attempts == x.attempts ==> y.transferReference == x.transferReference
                                     && (y.status == PROCESSING ==> x.status == PROCESSING))
    && (y.attempts != x.attempts ==>
          x.status in {QUEUED, RETRYING, PROCESSING} && y.status == PROCESSING && y.attempts == x.attempts + 1
          && y.transferReference == Some(Reference(p, y.attempts)) && y.failureReason == None)
  }

  /** SUCCESS is entered with the payout's own debit and left with its exact reversal, and no other way. */
  predicate MoneyMoves(before: seq<Posting>, after: seq<Posting>, x: Payout, y: Payout) {
    && (x.status != PayoutStatus.SUCCESS && y.status == PayoutStatus.SUCCESS ==> after == before + [PaidPosting(x)])
    && (x.status == PayoutStatus.SUCCESS && y.status != PayoutStatus.SUCCESS ==> after == before + [ReturnedPosting(x)])
  }

  predicate Moves(s: State, s': State, p: nat)
    requires HasPayout(s, p)
  {
    && HasPayout(s', p) && RowMoves(p, s.books.payouts[p], s'.books.payouts[p])
    && MoneyMoves(s.books.journal, s'.books.journal, s.books.payouts[p], s'.books.payouts[p])
  }

  // ---------------------------------------------------------------- one step

  lemma WriteMoves(s: State, w: nat, choice: Choice, p: nat)
    requires w in s.workers && WorkerOk(s, s.workers[w]) && WritesPayout(s.workers[w].pc)
    requires HasPayout(s, p) && s.books.payouts[p].status != CANCELLED
    ensures Moves(s, Step(s, w, choice), p)
  {
  }

  lemma MarkMoves(s: State, w: nat, choice: Choice, p: nat)
    requires w in s.workers && WorkerOk(s, s.workers[w]) && s.workers[w].pc.MarkCommit?
    requires HasPayout(s, p) && s.books.payouts[p].status != CANCELLED
    ensures Moves(s, Step(s, w, choice), p)
  {
    DebtsCanBePosted(s.books.payouts[p]);
  }

  lemma ReverseMoves(s: State, w: nat, choice: Choice, p: nat)
    requires w in s.workers && WorkerOk(s, s.workers[w]) && s.workers[w].pc.EventReverse?
    requires HasPayout(s, p) && s.books.payouts[p].status != CANCELLED
    ensures Moves(s, Step(s, w, choice), p)
  {
    DebtsCanBePosted(s.books.payouts[p]);
  }

  lemma SettlingMoves(s: State, w: nat, choice: Choice, p: nat)
    requires w in s.workers && WorkerOk(s, s.workers[w])
             && (s.workers[w].pc.SettleMove? || s.workers[w].pc.SettleCommit?)
    requires HasPayout(s, p) && s.books.payouts[p].status != CANCELLED
    ensures Moves(s, Step(s, w, choice), p)
  {
  }

  lemma StepMoves(s: State, w: nat, choice: Choice, p: nat)
    requires Inv(s) && w in s.workers && HasPayout(s, p) && s.books.payouts[p].status != CANCELLED
    ensures Moves(s, Step(s, w, choice), p)
  {
    assert WorkerOk(s, s.workers[w]);
    if WritesPayout(s.workers[w].pc) {
      WriteMoves(s, w, choice, p);
    } else if Posts(s.workers[w].pc) {
      if s.workers[w].pc.MarkCommit? {
        MarkMoves(s, w, choice, p);
      } else if s.workers[w].pc.EventReverse? {
        ReverseMoves(s, w, choice, p);
      } else {
        SettlingMoves(s, w, choice, p);
      }
    } else {
      Quiet(s, w, choice);
    }
  }

  lemma OutsideMoves(serial: bool, s: State, a: Action, p: nat)
    requires !(a.Advance? && a.w in s.workers) && HasPayout(s, p) && s.books.payouts[p].status != CANCELLED
    ensures Moves(s, Apply(serial, s, a), p)
  {
  }

  // ---------------------------------------------------------------- every run

  lemma {:induction false} NeverCancelled(serial: bool, actions: seq<Action>, p: nat)
    requires HasPayout(Run(serial, INITIAL, actions), p)
    ensures Run(serial, INITIAL, actions).books.payouts[p].status != CANCELLED
  {
    assert |actions| > 0;
    var shorter, a := actions[..|actions| - 1], actions[|actions| - 1];
    var s := Run(serial, INITIAL, shorter);
    if HasPayout(s, p) {
      NeverCancelled(serial, shorter, p);
      NextMoves(serial, shorter, a, p);
    } else {
      NewRowsAreQueued(serial, s, a, p);
    }
  }

  lemma NextMoves(serial: bool, actions: seq<Action>, a: Action, p: nat)
    requires var s := Run(serial, INITIAL, actions); HasPayout(s, p) && s.books.payouts[p].status != CANCELLED
    ensures var s := Run(serial, INITIAL, actions); Moves(s, Apply(serial, s, a), p)
  {
    var s := Run(serial, INITIAL, actions);
    Guarantees.AlwaysInv(serial, actions);
    if a.Advance? && a.w in s.workers {
      StepMoves(s, a.w, a.choice, p);
    } else {
      OutsideMoves(serial, s, a, p);
    }
  }

  /** In every run, by any action of anybody: a payout moves only along these statuses, is claimed only while it is
      QUEUED, RETRYING or PROCESSING, and its money moves exactly with SUCCESS. */
  lemma EveryMove(serial: bool, actions: seq<Action>, a: Action, p: nat)
    requires HasPayout(Run(serial, INITIAL, actions), p)
    ensures Moves(Run(serial, INITIAL, actions), Run(serial, INITIAL, actions + [a]), p)
  {
    NeverCancelled(serial, actions, p);
    NextMoves(serial, actions, a, p);
    assert (actions + [a])[..|actions|] == actions;
  }
}
