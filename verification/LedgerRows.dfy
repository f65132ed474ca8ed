/** The rows the ledger repository writes are exactly the journal the rest of the model reasons about. */
module LedgerRows {
  import opened Wrappers
  import opened Ledger
  import opened Tables
  import opened Protocol
  import opened LedgerRepository
  import Guarantees

  /** Every posting of every reachable journal is one the repository accepts, and each line lands on its own account. */
  lemma JournalLandsAsWritten(serial: bool, actions: seq<Action>, po: Posting)
    requires po in Run(serial, INITIAL, actions).books.journal
    ensures Balanced(po.entries) && AsLanded(po.entries) == po.entries
  {
    Guarantees.AlwaysInv(serial, actions);
    var b := Run(serial, INITIAL, actions).books;
    assert PostingOk(b, po);
    PostingsNeverClash(b, po);
    LinesLandOnTheirAccounts(po.entries);
  }

  lemma PostingsNeverClash(b: Books, po: Posting)
    requires PostingOk(b, po)
    ensures !KeysClash(po.entries)
  {
    if SplitLines(b, b.payments[po.transactionId]) == Ok(po.entries) {
      var payment := b.payments[po.transactionId];
      var account := Account(VenuePayable, Some("v"));
      ServicePostingsNeverClash(payment.terms, b.rules[payment.splitRuleId.value], account, 1);
    } else {
      var row :| row in b.payouts && MovesPayout(po, row);
      ServicePostingsNeverClash(b.payments[po.transactionId].terms, Split(0, 0, 0), row.account, row.amountKobo);
    }
  }

  /** In every reachable state, getBalance of a payable account (from grouped sums, in whatever order the groups come
      back) is what the payout table still owes its owner. */
  lemma GetBalanceIsWhatIsOwed(serial: bool, actions: seq<Action>, account: Account, groups: seq<Amount>)
    requires IsPayable(account.kind)
    requires IsGrouping(groups, AmountsOn(Rows(Run(serial, INITIAL, actions).books.journal), account))
    ensures BalanceOf(account.kind, groups) == Owed(Run(serial, INITIAL, actions).books.payouts, account) >= 0
  {
    GetBalanceMatchesRows(Rows(Run(serial, INITIAL, actions).books.journal), account, groups);
    Guarantees.LedgerAgreesWithPayouts(serial, actions, account);
  }
}
