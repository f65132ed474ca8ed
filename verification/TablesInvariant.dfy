/** Every transaction keeps the books consistent. */
module TablesInvariant {
  import opened Wrappers
  import opened Ledger
  import opened Tables

  // ---------------------------------------------------------------- appending to the journal

  lemma AppendNet(journal: seq<Posting>, po: Posting, a: Account)
    ensures Net(Rows(journal + [po]), a) == Net(Rows(journal), a) + Net(po.entries, a)
  {
    assert (journal + [po])[..|journal|] == journal;
    NetConcat(Rows(journal), po.entries, a);
  }

  lemma {:induction false} AppendSettlements(journal: seq<Posting>, po: Posting, t: nat)
    requires |po.entries| > 0
    ensures var more := if po.transactionId == t && po.entries[0].account == CLEARING then [po.entries] else [];
            SettlementsOf(journal + [po], t) == SettlementsOf(journal, t) + more
  {
    assert (journal + [po])[..|journal|] == journal;
  }

  lemma AppendMoves(journal: seq<Posting>, po: Posting, t: nat, a: Account)
    requires |po.entries| > 0
    ensures var more := if po.transactionId == t && po.entries[0].account == a then [po.entries[0].direction] else [];
            MovesOf(journal + [po], t, a) == MovesOf(journal, t, a) + more
  {
    assert (journal + [po])[..|journal|] == journal;
  }

  // ---------------------------------------------------------------- changing one payout row

  function OwedBy(row: Payout, a: Account): int {
    if row.account == a && row.status != PayoutStatus.SUCCESS then row.amountKobo else 0
  }

  function PaidBy(row: Payout): int {
    if row.status == PayoutStatus.SUCCESS then row.amountKobo else 0
  }

  lemma {:induction false} UpdateOwed(payouts: seq<Payout>, p: nat, row: Payout, a: Account)
    requires p < |payouts|
    ensures Owed(payouts[p := row], a) == Owed(payouts, a) - OwedBy(payouts[p], a) + OwedBy(row, a)
  {
    var n := |payouts| - 1;
    if p < n {
      assert payouts[p := row][..n] == payouts[..n][p := row];
      UpdateOwed(payouts[..n], p, row, a);
    } else {
      assert payouts[p := row][..n] == payouts[..n];
    }
  }

  lemma {:induction false} UpdatePaidOut(payouts: seq<Payout>, p: nat, row: Payout)
    requires p < |payouts|
    ensures PaidOut(payouts[p := row]) == PaidOut(payouts) - PaidBy(payouts[p]) + PaidBy(row)
  {
    var n := |payouts| - 1;
    if p < n {
      assert payouts[p := row][..n] == payouts[..n][p := row];
      UpdatePaidOut(payouts[..n], p, row);
    } else {
      assert payouts[p := row][..n] == payouts[..n];
    }
  }

  lemma {:induction false} UpdateObligations(payouts: seq<Payout>, p: nat, row: Payout, t: nat)
    requires p < |payouts| && SameObligation(payouts[p], row)
    ensures ObligationsOf(payouts[p := row], t) == ObligationsOf(payouts, t)
  {
    var n := |payouts| - 1;
    if p < n {
      assert payouts[p := row][..n] == payouts[..n][p := row];
      UpdateObligations(payouts[..n], p, row, t);
    } else {
      assert payouts[p := row][..n] == payouts[..n];
    }
  }

  /** The new row describes the same obligation, with a reference that fits its attempt count. */
  predicate Rewrites(p: nat, was: Payout, row: Payout) {
    && SameObligation(was, row)
    && was.attempts <= row.attempts
    && row.transferReference == CurrentReference(p, row.attempts)
  }

  /** An update that neither enters nor leaves SUCCESS needs no posting. */
  lemma TouchKeepsConsistent(b: Books, p: nat, row: Payout)
    requires Consistent(b) && p < |b.payouts| && Rewrites(p, b.payouts[p], row)
    requires row.status == PayoutStatus.SUCCESS <==> b.payouts[p].status == PayoutStatus.SUCCESS
    ensures Consistent(SetPayout(b, p, row))
  {
    var c := SetPayout(b, p, row);
    forall t: nat { UpdateObligations(b.payouts, p, row, t); }
    forall t | 0 <= t < |c.payments| ensures PaymentOk(c, t) {
      assert PaymentOk(b, t);
    }
    forall q | 0 <= q < |c.payouts| ensures PayoutOk(c, q) {
      assert PayoutOk(b, q);
    }
    JournalSurvives(b, c);
    forall a: Account | IsPayable(a.kind) ensures Balance(c, a) == Owed(c.payouts, a) {
      assert Balance(b, a) == Owed(b.payouts, a);
      UpdateOwed(b.payouts, p, row, a);
    }
    UpdatePaidOut(b.payouts, p, row);
  }

  /** Postings stay justified when payments and obligations only grow. */
  lemma JournalSurvives(b: Books, c: Books)
    requires JournalOk(b) && Extends(b, c)
    ensures forall po <- b.journal :: PostingOk(c, po)
  {
    forall po <- b.journal ensures PostingOk(c, po) {
      assert PostingOk(b, po);
      if SplitLines(b, b.payments[po.transactionId]) != Ok(po.entries) {
        var row :| row in b.payouts && MovesPayout(po, row);
        var i :| 0 <= i < |b.payouts| && b.payouts[i] == row;
        assert SameObligation(row, c.payouts[i]);
        assert MovesPayout(po, c.payouts[i]);
      }
    }
  }

  // ---------------------------------------------------------------- entering and leaving SUCCESS

  /** The posting that goes with moving payout p into SUCCESS (Debit) or out of it (Credit). */
  function MoveLines(row: Payout, direction: Direction): seq<EntrySpec> {
    if direction == Debit then PayoutLines(row.account, row.amountKobo) else ReversalLines(row.account, row.amountKobo)
  }

  function Move(b: Books, p: nat, row: Payout, direction: Direction): Books
    requires p < |b.payouts|
  {
    SetPayout(b, p, row).(journal := b.journal + [Posting(row.transactionId, MoveLines(row, direction))])
  }

  predicate Moves(b: Books, p: nat, row: Payout, direction: Direction) {
    && p < |b.payouts| && Rewrites(p, b.payouts[p], row)
    && CanPayOut(row.account, row.amountKobo)
    && (row.status == PayoutStatus.SUCCESS <==> direction == Debit)
    && (b.payouts[p].status == PayoutStatus.SUCCESS <==> direction == Credit)
  }

  lemma MoveKeepsPayment(b: Books, p: nat, row: Payout, direction: Direction, t: nat)
    requires Moves(b, p, row, direction) && t < |b.payments| && PaymentOk(b, t)
    ensures PaymentOk(Move(b, p, row, direction), t)
  {
    UpdateObligations(b.payouts, p, row, t);
    AppendSettlements(b.journal, Posting(row.transactionId, MoveLines(row, direction)), t);
  }

  lemma MoveKeepsPayout(b: Books, p: nat, row: Payout, direction: Direction, q: nat)
    requires Moves(b, p, row, direction) && UniqueObligations(b.payouts)
    requires q < |b.payouts| && PayoutOk(b, q)
    ensures PayoutOk(Move(b, p, row, direction), q)
  {
    var before := b.payouts[q];
    var moves := MovesOf(b.journal, before.transactionId, before.account);
    AppendMoves(b.journal, Posting(row.transactionId, MoveLines(row, direction)), before.transactionId, before.account);
    if p == q {
      assert Alternates(moves + [direction]);
    } else {
      assert before.account != row.account || before.transactionId != row.transactionId by {
        if q < p { assert b.payouts[q].account != b.payouts[p].account
            || b.payouts[q].transactionId != b.payouts[p].transactionId; }
        else { assert b.payouts[p].account != b.payouts[q].account
            || b.payouts[p].transactionId != b.payouts[q].transactionId; }
      }
    }
  }

  lemma MoveKeepsBalances(b: Books, p: nat, row: Payout, direction: Direction)
    requires Consistent(b) && Moves(b, p, row, direction)
    ensures BalancesOk(Move(b, p, row, direction))
  {
    var c := Move(b, p, row, direction);
    var po := Posting(row.transactionId, MoveLines(row, direction));
    forall a: Account | IsPayable(a.kind) ensures Balance(c, a) == Owed(c.payouts, a) {
      assert Balance(b, a) == Owed(b.payouts, a);
      UpdateOwed(b.payouts, p, row, a);
      PayoutPostingEffect(row.account, row.amountKobo, a);
      AppendNet(b.journal, po, a);
    }
    UpdatePaidOut(b.payouts, p, row);
    PayoutPostingEffect(row.account, row.amountKobo, CLEARING);
    AppendNet(b.journal, po, CLEARING);
  }

  lemma MoveKeepsConsistent(b: Books, p: nat, row: Payout, direction: Direction)
    requires Consistent(b) && Moves(b, p, row, direction)
    ensures Consistent(Move(b, p, row, direction))
  {
    var c := Move(b, p, row, direction);
    var po := Posting(row.transactionId, MoveLines(row, direction));
    forall t | 0 <= t < |c.payments| ensures PaymentOk(c, t) {
      assert PaymentOk(b, t);
      MoveKeepsPayment(b, p, row, direction, t);
    }
    forall q | 0 <= q < |c.payouts| ensures PayoutOk(c, q) {
      assert PayoutOk(b, q);
      MoveKeepsPayout(b, p, row, direction, q);
    }
    MoveKeepsBalances(b, p, row, direction);
    assert PayoutOk(b, p);
    JournalSurvives(b, c);
    assert MovesPayout(po, c.payouts[p]);
    PayoutPostingEffect(row.account, row.amountKobo, CLEARING);
    assert PostingOk(c, po);
  }

  lemma MoveExtends(b: Books, p: nat, row: Payout, direction: Direction)
    requires p < |b.payouts| && Rewrites(p, b.payouts[p], row)
    ensures Extends(b, Move(b, p, row, direction))
  {
  }

  lemma SucceedKeepsConsistent(b: Books, p: nat, ref: Reference, entries: seq<EntrySpec>)
    requires Consistent(b) && p < |b.payouts|
    requires PayoutEntries(b.payouts[p].account, b.payouts[p].amountKobo) == Ok(entries)
    ensures Consistent(SucceedPayout(b, p, ref, entries)) && Extends(b, SucceedPayout(b, p, ref, entries))
  {
    if CanSucceed(b, p, ref) {
      var row := SucceedPayout(b, p, ref, entries).payouts[p];
      assert PayoutOk(b, p);
      assert SucceedPayout(b, p, ref, entries) == Move(b, p, row, Debit);
      MoveKeepsConsistent(b, p, row, Debit);
      MoveExtends(b, p, row, Debit);
    }
  }

  lemma ReverseKeepsConsistent(b: Books, p: nat, ref: Reference, entries: seq<EntrySpec>, given: Option<string>)
    requires Consistent(b) && p < |b.payouts|
    requires PayoutReversalEntries(b.payouts[p].account, b.payouts[p].amountKobo) == Ok(entries)
    ensures Consistent(ReversePayout(b, p, ref, entries, given)) && Extends(b, ReversePayout(b, p, ref, entries, given))
  {
    if CanReverse(b, p, ref) {
      var row := ReversePayout(b, p, ref, entries, given).payouts[p];
      assert PayoutOk(b, p);
      assert ReversePayout(b, p, ref, entries, given) == Move(b, p, row, Credit);
      MoveKeepsConsistent(b, p, row, Credit);
      MoveExtends(b, p, row, Credit);
    }
  }

  // ---------------------------------------------------------------- settlement

  lemma {:induction false} ConcatOwed(payouts: seq<Payout>, more: seq<Payout>, a: Account)
    ensures Owed(payouts + more, a) == Owed(payouts, a) + Owed(more, a)
  {
    if |more| == 0 {
      assert payouts + more == payouts;
    } else {
      assert (payouts + more)[..|payouts + more| - 1] == payouts + more[..|more| - 1];
      ConcatOwed(payouts, more[..|more| - 1], a);
    }
  }

  lemma {:induction false} ConcatNewObligations(payouts: seq<Payout>, os: seq<Obligation>, t: nat, u: nat)
    ensures ObligationsOf(payouts + NewPayouts(os, t), u) == ObligationsOf(payouts, u) + if u == t then os else []
    ensures PaidOut(payouts + NewPayouts(os, t)) == PaidOut(payouts)
  {
    if |os| == 0 {
      assert payouts + NewPayouts(os, t) == payouts;
    } else {
      var longer := payouts + NewPayouts(os, t);
      var shorter := os[..|os| - 1];
      assert longer[..|longer| - 1] == payouts + NewPayouts(shorter, t);
      ConcatNewObligations(payouts, shorter, t, u);
      assert os == shorter + [os[|os| - 1]];
    }
  }

  /** What the new payouts owe an account is what the posting credits to it. */
  lemma {:induction false} ObligationsMatchCredits(entries: seq<EntrySpec>, t: nat, a: Account)
    requires IsPayable(a.kind)
    requires forall e <- entries :: IsPayable(e.account.kind) ==> e.direction == Credit
    ensures Owed(NewPayouts(Obligations(entries), t), a) == Net(entries, a)
  {
    if |entries| > 0 {
      var shorter := entries[..|entries| - 1];
      ObligationsMatchCredits(shorter, t, a);
      var e := entries[|entries| - 1];
      if e.direction == Credit && IsPayable(e.account.kind) {
        var added := NewPayouts(Obligations(entries), t);
        assert Obligations(entries) == Obligations(shorter) + [Obligation(e.account, e.amountKobo)];
        assert added[..|added| - 1] == NewPayouts(Obligations(shorter), t);
        assert added[|added| - 1] == NewPayout(Obligation(e.account, e.amountKobo), t);
      } else {
        assert e.account != a;
        assert Obligations(entries) == Obligations(shorter);
      }
    }
  }

  /** The obligations of a settlement, share by share: the entertainer's, then the venue's. */
  lemma SettlementObligations(terms: PaymentForPosting, split: Split)
    requires ValidSplit(split) && ValidGross(terms.grossAmountKobo)
    ensures Obligations(PaymentLines(terms, split))
            == Due(Account(EntertainerPayable, terms.entertainerId), EntertainerShare(terms, split))
               + Due(Account(VenuePayable, Some(terms.venueId)), VenueShare(terms, split))
  {
    var first := [EntrySpec(CLEARING, Debit, terms.grossAmountKobo)];
    var e := CreditLine(Account(EntertainerPayable, terms.entertainerId), EntertainerShare(terms, split));
    var v := CreditLine(Account(VenuePayable, Some(terms.venueId)), VenueShare(terms, split));
    assert first[..0] == [];
    assert Obligations(first) == Obligations(first[..0]) == [];
    ObligationsOfLine(first, Account(EntertainerPayable, terms.entertainerId), EntertainerShare(terms, split));
    ObligationsOfLine(first + e, Account(VenuePayable, Some(terms.venueId)), VenueShare(terms, split));
    ObligationsOfLine(first + e + v, REVENUE, PlatformShare(terms, split));
  }

  function Due(account: Account, amountKobo: int): seq<Obligation> {
    if amountKobo > 0 && IsPayable(account.kind) then [Obligation(account, amountKobo)] else []
  }

  /** A settlement posting starts on clearing and credits at most one entertainer and at most one venue account. */
  lemma SettlementShape(terms: PaymentForPosting, split: Split)
    requires ValidSplit(split) && ValidGross(terms.grossAmountKobo)
    ensures var lines := PaymentLines(terms, split); var os := Obligations(lines);
            && lines[0].account == CLEARING
            && (forall e <- lines :: IsPayable(e.account.kind) ==> e.direction == Credit)
            && (forall o <- os :: IsPayable(o.account.kind) && 0 < o.amountKobo <= MAX_SAFE_INTEGER)
            && (forall i, j | 0 <= i < j < |os| :: os[i].account != os[j].account)
  {
    SplitExactness(terms, split);
    SettlementObligations(terms, split);
  }

  lemma ObligationsOfLine(entries: seq<EntrySpec>, account: Account, amountKobo: int)
    ensures Obligations(entries + CreditLine(account, amountKobo))
            == Obligations(entries)
               + Due(account, amountKobo)
  {
    if amountKobo > 0 {
      var longer := entries + CreditLine(account, amountKobo);
      assert longer[..|longer| - 1] == entries;
    } else {
      assert entries + CreditLine(account, amountKobo) == entries;
    }
  }

  lemma {:induction false} UpdateSettledGross(payments: seq<Payment>, t: nat, row: Payment)
    requires t < |payments| && payments[t].terms == row.terms && payments[t].status != PaymentStatus.SUCCESS
    ensures SettledGross(payments[t := row])
            == SettledGross(payments) + if row.status == PaymentStatus.SUCCESS then row.terms.grossAmountKobo else 0
  {
    var n := |payments| - 1;
    if t < n {
      assert payments[t := row][..n] == payments[..n][t := row];
      UpdateSettledGross(payments[..n], t, row);
    } else {
      assert payments[t := row][..n] == payments[..n];
    }
  }

  lemma {:induction false} NoObligationNoPayout(payouts: seq<Payout>, t: nat)
    requires ObligationsOf(payouts, t) == []
    ensures forall row <- payouts :: row.transactionId != t
  {
    if |payouts| > 0 {
      NoObligationNoPayout(payouts[..|payouts| - 1], t);
      assert payouts == payouts[..|payouts| - 1] + [payouts[|payouts| - 1]];
    }
  }

  lemma {:induction false} NothingPostedNoMoves(b: Books, journal: seq<Posting>, t: nat, a: Account)
    requires forall po <- journal :: PostingOk(b, po)
    requires t < |b.payments| && b.payments[t].status != PaymentStatus.SUCCESS
    ensures MovesOf(journal, t, a) == []
  {
    if |journal| > 0 {
      NothingPostedNoMoves(b, journal[..|journal| - 1], t, a);
      assert PostingOk(b, journal[|journal| - 1]);
    }
  }

  lemma SettleKeepsPayment(b: Books, t: nat, entries: seq<EntrySpec>, u: nat)
    requires t < |b.payments| && IsSettleable(b.payments[t].status) && u < |b.payments|
    requires SplitLines(b, b.payments[t]) == Ok(entries)
    requires PaymentOk(b, t) && PaymentOk(b, u)
    ensures PaymentOk(SettlePayment(b, t, entries), u)
  {
    ConcatNewObligations(b.payouts, Obligations(entries), t, u);
    AppendSettlements(b.journal, Posting(t, entries), u);
  }

  lemma SettleKeepsOldPayout(b: Books, t: nat, entries: seq<EntrySpec>, p: nat)
    requires t < |b.payments| && IsSettleable(b.payments[t].status) && p < |b.payouts| && PayoutOk(b, p)
    requires SplitLines(b, b.payments[t]) == Ok(entries)
    ensures PayoutOk(SettlePayment(b, t, entries), p)
  {
    SettlementShape(b.payments[t].terms, b.rules[b.payments[t].splitRuleId.value]);
    AppendMoves(b.journal, Posting(t, entries), b.payouts[p].transactionId, b.payouts[p].account);
  }

  lemma SettleMakesPayout(b: Books, t: nat, entries: seq<EntrySpec>, i: nat)
    requires JournalOk(b) && t < |b.payments| && IsSettleable(b.payments[t].status)
    requires SplitLines(b, b.payments[t]) == Ok(entries) && i < |Obligations(entries)|
    ensures PayoutOk(SettlePayment(b, t, entries), |b.payouts| + i)
  {
    SettlementShape(b.payments[t].terms, b.rules[b.payments[t].splitRuleId.value]);
    var o := Obligations(entries)[i];
    assert o in Obligations(entries);
    AppendMoves(b.journal, Posting(t, entries), t, o.account);
    NothingPostedNoMoves(b, b.journal, t, o.account);
  }

  lemma SettleKeepsPayout(b: Books, t: nat, entries: seq<EntrySpec>, p: nat)
    requires Consistent(b) && t < |b.payments| && IsSettleable(b.payments[t].status)
    requires SplitLines(b, b.payments[t]) == Ok(entries)
    requires p < |SettlePayment(b, t, entries).payouts|
    ensures PayoutOk(SettlePayment(b, t, entries), p)
  {
    if p < |b.payouts| {
      assert PayoutOk(b, p);
      SettleKeepsOldPayout(b, t, entries, p);
    } else {
      SettleMakesPayout(b, t, entries, p - |b.payouts|);
    }
  }

  lemma NewRowsStayUnique(payouts: seq<Payout>, os: seq<Obligation>, t: nat)
    requires UniqueObligations(payouts) && forall row <- payouts :: row.transactionId != t
    requires forall i, j | 0 <= i < j < |os| :: os[i].account != os[j].account
    ensures UniqueObligations(payouts + NewPayouts(os, t))
  {
    var all := payouts + NewPayouts(os, t);
    forall i, j | 0 <= i < j < |all|
      ensures all[i].account != all[j].account || all[i].transactionId != all[j].transactionId
    {
      if i < |payouts| {
        assert all[i] == payouts[i];
      }
      if j >= |payouts| {
        assert all[j] == NewPayout(os[j - |payouts|], t);
      }
    }
  }

  lemma SettleKeepsBalances(b: Books, t: nat, entries: seq<EntrySpec>)
    requires Consistent(b) && t < |b.payments| && IsSettleable(b.payments[t].status)
    requires SplitLines(b, b.payments[t]) == Ok(entries)
    ensures BalancesOk(SettlePayment(b, t, entries))
  {
    var c := SettlePayment(b, t, entries);
    var terms, split := b.payments[t].terms, b.rules[b.payments[t].splitRuleId.value];
    SettlementShape(terms, split);
    forall a: Account | IsPayable(a.kind) ensures Balance(c, a) == Owed(c.payouts, a) {
      assert Balance(b, a) == Owed(b.payouts, a);
      ConcatOwed(b.payouts, NewPayouts(Obligations(entries), t), a);
      ObligationsMatchCredits(entries, t, a);
      AppendNet(b.journal, Posting(t, entries), a);
    }
    PaymentPostingBalances(terms, split);
    AppendNet(b.journal, Posting(t, entries), CLEARING);
    ConcatNewObligations(b.payouts, Obligations(entries), t, t);
    UpdateSettledGross(b.payments, t, c.payments[t]);
  }

  lemma SettleKeepsRows(b: Books, t: nat, entries: seq<EntrySpec>)
    requires Consistent(b) && t < |b.payments| && IsSettleable(b.payments[t].status)
    requires SplitLines(b, b.payments[t]) == Ok(entries)
    ensures var c := SettlePayment(b, t, entries); PaymentsOk(c) && PayoutsOk(c)
  {
    var c := SettlePayment(b, t, entries);
    assert PaymentOk(b, t);
    forall u | 0 <= u < |c.payments| ensures PaymentOk(c, u) {
      assert PaymentOk(b, u);
      SettleKeepsPayment(b, t, entries, u);
    }
    forall p | 0 <= p < |c.payouts| ensures PayoutOk(c, p) {
      SettleKeepsPayout(b, t, entries, p);
    }
  }

  lemma SettleExtends(b: Books, t: nat, entries: seq<EntrySpec>)
    requires t < |b.payments|
    ensures Extends(b, SettlePayment(b, t, entries))
  {
  }

  lemma SettleKeepsJournal(b: Books, t: nat, entries: seq<EntrySpec>)
    requires JournalOk(b) && t < |b.payments| && IsSettleable(b.payments[t].status)
    requires SplitLines(b, b.payments[t]) == Ok(entries)
    ensures JournalOk(SettlePayment(b, t, entries))
  {
    var c := SettlePayment(b, t, entries);
    PaymentPostingBalances(b.payments[t].terms, b.rules[b.payments[t].splitRuleId.value]);
    SettleExtends(b, t, entries);
    JournalSurvives(b, c);
    assert PostingOk(c, Posting(t, entries));
  }

  lemma SettleKeepsUnique(b: Books, t: nat, entries: seq<EntrySpec>)
    requires UniqueObligations(b.payouts) && t < |b.payments| && IsSettleable(b.payments[t].status)
    requires PaymentOk(b, t) && SplitLines(b, b.payments[t]) == Ok(entries)
    ensures UniqueObligations(SettlePayment(b, t, entries).payouts)
  {
    NoObligationNoPayout(b.payouts, t);
    SettlementShape(b.payments[t].terms, b.rules[b.payments[t].splitRuleId.value]);
    NewRowsStayUnique(b.payouts, Obligations(entries), t);
  }

  lemma SettleKeepsConsistent(b: Books, t: nat, entries: seq<EntrySpec>)
    requires Consistent(b) && t < |b.payments| && SplitLines(b, b.payments[t]) == Ok(entries)
    ensures Consistent(SettlePayment(b, t, entries))
  {
    if IsSettleable(b.payments[t].status) {
      SettleKeepsRows(b, t, entries);
      SettleKeepsBalances(b, t, entries);
      SettleKeepsJournal(b, t, entries);
      assert PaymentOk(b, t);
      SettleKeepsUnique(b, t, entries);
    }
  }

  // ---------------------------------------------------------------- transactions that post nothing

  lemma MovePaymentKeepsConsistent(b: Books, t: nat, from: set<PaymentStatus>, to: PaymentStatus)
    requires Consistent(b) && t < |b.payments|
    requires PaymentStatus.SUCCESS !in from && to != PaymentStatus.SUCCESS
    ensures Consistent(MovePayment(b, t, from, to))
  {
    var c := MovePayment(b, t, from, to);
    forall u | 0 <= u < |c.payments| ensures PaymentOk(c, u) {
      assert PaymentOk(b, u);
    }
    forall p | 0 <= p < |c.payouts| ensures PayoutOk(c, p) {
      assert PayoutOk(b, p);
    }
    JournalSurvives(b, c);
    forall a: Account | IsPayable(a.kind) ensures Balance(c, a) == Owed(c.payouts, a) {
      assert Balance(b, a) == Owed(b.payouts, a);
    }
    if b.payments[t].status in from {
      UpdateSettledGross(b.payments, t, c.payments[t]);
    }
  }

  lemma AddPaymentKeepsConsistent(b: Books, payment: Payment)
    requires Consistent(b) && payment.status != PaymentStatus.SUCCESS
    ensures Consistent(AddPayment(b, payment))
  {
    var c := AddPayment(b, payment);
    var t := |b.payments|;
    forall u | 0 <= u < |c.payments| ensures PaymentOk(c, u) {
      if u < t {
        assert PaymentOk(b, u);
      } else {
        forall row <- b.payouts ensures IsSettled(b, row.transactionId) {
          var p :| 0 <= p < |b.payouts| && b.payouts[p] == row;
          assert PayoutOk(b, p);
        }
        NothingForUnknownPayment(b, b.journal, b.payouts, t);
      }
    }
    forall p | 0 <= p < |c.payouts| ensures PayoutOk(c, p) {
      assert PayoutOk(b, p);
    }
    JournalSurvives(b, c);
    forall a: Account | IsPayable(a.kind) ensures Balance(c, a) == Owed(c.payouts, a) {
      assert Balance(b, a) == Owed(b.payouts, a);
    }
    assert c.payments[..t] == b.payments;
  }

  lemma {:induction false} NothingForUnknownPayment(b: Books, journal: seq<Posting>, payouts: seq<Payout>, t: nat)
    requires |b.payments| <= t
    requires forall po <- journal :: IsSettled(b, po.transactionId)
    requires forall row <- payouts :: IsSettled(b, row.transactionId)
    ensures SettlementsOf(journal, t) == [] && ObligationsOf(payouts, t) == []
    decreases |journal| + |payouts|
  {
    if |journal| > 0 {
      NothingForUnknownPayment(b, journal[..|journal| - 1], payouts, t);
      assert journal[|journal| - 1] in journal;
    } else if |payouts| > 0 {
      NothingForUnknownPayment(b, journal, payouts[..|payouts| - 1], t);
      assert payouts[|payouts| - 1] in payouts;
    }
  }

  lemma AddRuleKeepsConsistent(b: Books, split: Split)
    requires Consistent(b)
    ensures Consistent(AddRule(b, split))
  {
    var c := AddRule(b, split);
    forall u | 0 <= u < |c.payments| ensures PaymentOk(c, u) {
      assert PaymentOk(b, u);
    }
    forall p | 0 <= p < |c.payouts| ensures PayoutOk(c, p) {
      assert PayoutOk(b, p);
    }
    JournalSurvives(b, c);
    forall a: Account | IsPayable(a.kind) ensures Balance(c, a) == Owed(c.payouts, a) {
      assert Balance(b, a) == Owed(b.payouts, a);
    }
  }
}
