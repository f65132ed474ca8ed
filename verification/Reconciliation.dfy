/** ReconciliationService.run: the report, and what its numbers mean in every reachable state. */
module Reconciliation {
  import opened Wrappers
  import opened Ledger
  import opened Tables
  import opened Protocol
  import opened Safety
  import opened SingleTransfer
  import opened TablesInvariant
  import opened Concurrency
  import Guarantees

  datatype Report = Report(
    trialBalanced: bool, totalDebitsKobo: int, totalCreditsKobo: int,
    ledgerClearingKobo: int, inFlightPayoutsKobo: int, expectedProviderBalanceKobo: int,
    providerBalanceKobo: int, driftKobo: int,
    entertainerPayableKobo: int, venuePayableKobo: int, platformRevenueKobo: int)

  /** The tables as each query of the report finds them: other requests may run in between. */
  datatype Reads = Reads(
    trial: Books, clearing: Books, entertainers: Books, venues: Books, revenue: Books, inFlight: Books)

  /** Sum of the amounts of the payouts in one status. */
  function InStatus(payouts: seq<Payout>, status: PayoutStatus): int {
    if |payouts| == 0 then 0
    else
      var row := payouts[|payouts| - 1];
      InStatus(payouts[..|payouts| - 1], status) + if row.status == status then row.amountKobo else 0
  }

  function Reconcile(figures: Reads, providerBalanceKobo: int): Report {
    var debits, credits := Total(Rows(figures.trial.journal), Debit), Total(Rows(figures.trial.journal), Credit);
    var clearing := Balance(figures.clearing, CLEARING);
    var inFlight := InStatus(figures.inFlight.payouts, PROCESSING);
    var expected := clearing - inFlight;
    Report(debits == credits, debits, credits, clearing, inFlight, expected, providerBalanceKobo,
           providerBalanceKobo - expected,
           NetOfKind(Rows(figures.entertainers.journal), EntertainerPayable),
           NetOfKind(Rows(figures.venues.journal), VenuePayable), Balance(figures.revenue, REVENUE))
  }

  /** How far a run had come when each query was answered. */
  datatype Moments = Moments(trial: nat, clearing: nat, entertainers: nat, venues: nat, revenue: nat, inFlight: nat)

  predicate Within(at: Moments, history: seq<Action>) {
    && at.trial <= |history| && at.clearing <= |history| && at.entertainers <= |history|
    && at.venues <= |history| && at.revenue <= |history| && at.inFlight <= |history|
  }

  function BooksAt(serial: bool, history: seq<Action>, moment: nat): Books
    requires moment <= |history|
  {
    Run(serial, INITIAL, history[..moment]).books
  }

  function ReadsAt(serial: bool, history: seq<Action>, at: Moments): Reads
    requires Within(at, history)
  {
    Reads(BooksAt(serial, history, at.trial), BooksAt(serial, history, at.clearing),
          BooksAt(serial, history, at.entertainers), BooksAt(serial, history, at.venues),
          BooksAt(serial, history, at.revenue), BooksAt(serial, history, at.inFlight))
  }

  /** The rows posted from a moment to the end of the run. */
  function PostedSince(serial: bool, history: seq<Action>, moment: nat): seq<EntrySpec>
    requires moment <= |history|
  {
    var before, now := BooksAt(serial, history, moment).journal, Run(serial, INITIAL, history).books.journal;
    if |before| <= |now| then Rows(now[|before|..]) else []
  }

  // ---------------------------------------------------------------- the identity

  /** Lines on the clearing and revenue types always use the ownerless account. */
  predicate SystemAccountsOwnerless(entries: seq<EntrySpec>) {
    forall e <- entries :: !IsPayable(e.account.kind) ==> e.account.owner == None
  }

  lemma {:induction false} KindsPartition(entries: seq<EntrySpec>)
    ensures NetOfKind(entries, ProcessorClearing) == Total(entries, Debit) - Total(entries, Credit)
            + NetOfKind(entries, EntertainerPayable) + NetOfKind(entries, VenuePayable)
                + NetOfKind(entries, PlatformRevenue)
  {
    if |entries| > 0 {
      KindsPartition(entries[..|entries| - 1]);
    }
  }

  lemma {:induction false} OwnerlessKind(entries: seq<EntrySpec>, kind: AccountType)
    requires SystemAccountsOwnerless(entries) && !IsPayable(kind)
    ensures NetOfKind(entries, kind) == Net(entries, Account(kind, None))
  {
    if |entries| > 0 {
      assert entries[|entries| - 1] in entries;
      OwnerlessKind(entries[..|entries| - 1], kind);
    }
  }

  lemma PostingOwnerless(b: Books, po: Posting)
    requires PostingOk(b, po)
    ensures SystemAccountsOwnerless(po.entries)
  {
  }

  lemma {:induction false} JournalBalances(b: Books, journal: seq<Posting>)
    requires forall po <- journal :: PostingOk(b, po)
    ensures Total(Rows(journal), Debit) == Total(Rows(journal), Credit)
    ensures SystemAccountsOwnerless(Rows(journal))
  {
    if |journal| > 0 {
      var shorter, po := journal[..|journal| - 1], journal[|journal| - 1];
      JournalBalances(b, shorter);
      assert PostingOk(b, po);
      PostingOwnerless(b, po);
      TotalConcat(Rows(shorter), po.entries, Debit);
      TotalConcat(Rows(shorter), po.entries, Credit);
    }
  }

  /** In every reachable ledger debits equal credits, and the clearing balance is exactly what is owed to
      entertainers and venues plus what the platform earned. */
  lemma {:induction false} LedgerIdentity(serial: bool, actions: seq<Action>)
    ensures var b := Run(serial, INITIAL, actions).books; var rows := Rows(b.journal);
            && Total(rows, Debit) == Total(rows, Credit)
            && Balance(b, CLEARING)
               == NetOfKind(rows, EntertainerPayable) + NetOfKind(rows, VenuePayable) + Balance(b, REVENUE)
  {
    Guarantees.AlwaysInv(serial, actions);
    var b := Run(serial, INITIAL, actions).books;
    JournalBalances(b, b.journal);
    KindsPartition(Rows(b.journal));
    OwnerlessKind(Rows(b.journal), ProcessorClearing);
    OwnerlessKind(Rows(b.journal), PlatformRevenue);
  }

  lemma Regroup(a: seq<EntrySpec>, b: seq<EntrySpec>, c: seq<EntrySpec>)
    ensures (a + b) + c == a + (b + c)
  {
  }

  lemma {:induction false} RowsConcat(a: seq<Posting>, b: seq<Posting>)
    ensures Rows(a + b) == Rows(a) + Rows(b)
  {
    if |b| == 0 {
      assert a + b == a;
    } else {
      var shorter, last := b[..|b| - 1], b[|b| - 1];
      RowsConcat(a, shorter);
      assert (a + b)[..|a + b| - 1] == a + shorter && (a + b)[|a + b| - 1] == last;
      Regroup(Rows(a), Rows(shorter), last.entries);
    }
  }

  lemma {:induction false} JournalGrows(serial: bool, history: seq<Action>, moment: nat)
    requires moment <= |history|
    ensures BooksAt(serial, history, moment).journal <= Run(serial, INITIAL, history).books.journal
  {
    Guarantees.RunExtends(serial, history[..moment], history);
  }

  /** A journal read earlier is the end of the run's less what was posted since. */
  lemma {:induction false} RowsSince(serial: bool, history: seq<Action>, moment: nat)
    requires moment <= |history|
    ensures Rows(Run(serial, INITIAL, history).books.journal)
            == Rows(BooksAt(serial, history, moment).journal) + PostedSince(serial, history, moment)
  {
    JournalGrows(serial, history, moment);
    SuffixRows(BooksAt(serial, history, moment).journal, Run(serial, INITIAL, history).books.journal);
  }

  lemma SuffixRows(before: seq<Posting>, now: seq<Posting>)
    requires before <= now
    ensures Rows(now) == Rows(before) + Rows(now[|before|..])
  {
    assert now == before + now[|before|..];
    RowsConcat(before, now[|before|..]);
  }

  /** Whenever each figure was read: debits equal credits, and the figures satisfy the ledger identity once what was
      posted after each reading is added to it. */
  lemma ReportIdentity(serial: bool, history: seq<Action>, at: Moments, providerBalanceKobo: int)
    requires Within(at, history)
    ensures var r := Reconcile(ReadsAt(serial, history, at), providerBalanceKobo);
            && r.trialBalanced
            && r.ledgerClearingKobo + Net(PostedSince(serial, history, at.clearing), CLEARING)
               == r.entertainerPayableKobo + NetOfKind(PostedSince(serial, history, at.entertainers),
                                                       EntertainerPayable)
                  + r.venuePayableKobo + NetOfKind(PostedSince(serial, history, at.venues), VenuePayable)
                  + r.platformRevenueKobo + Net(PostedSince(serial, history, at.revenue), REVENUE)
  {
    LedgerIdentity(serial, history[..at.trial]);
    LedgerIdentity(serial, history);
    RowsSince(serial, history, at.clearing);
    NetConcat(Rows(BooksAt(serial, history, at.clearing).journal), PostedSince(serial, history, at.clearing), CLEARING);
    RowsSince(serial, history, at.entertainers);
    NetOfKindConcat(Rows(BooksAt(serial, history, at.entertainers).journal),
                    PostedSince(serial, history, at.entertainers), EntertainerPayable);
    RowsSince(serial, history, at.venues);
    NetOfKindConcat(Rows(BooksAt(serial, history, at.venues).journal),
                    PostedSince(serial, history, at.venues), VenuePayable);
    RowsSince(serial, history, at.revenue);
    NetConcat(Rows(BooksAt(serial, history, at.revenue).journal), PostedSince(serial, history, at.revenue), REVENUE);
  }

  /** Read at one moment, the figures satisfy the identity as they stand. */
  lemma ReportIdentityAtOnce(serial: bool, history: seq<Action>, at: Moments, providerBalanceKobo: int)
    requires Within(at, history) && at.clearing == at.entertainers == at.venues == at.revenue
    ensures var r := Reconcile(ReadsAt(serial, history, at), providerBalanceKobo);
            r.ledgerClearingKobo == r.entertainerPayableKobo + r.venuePayableKobo + r.platformRevenueKobo
  {
    LedgerIdentity(serial, history[..at.clearing]);
  }

  // ---------------------------------------------------------------- per owner

  function SumOverOwners(entries: seq<EntrySpec>, kind: AccountType, owners: seq<Option<string>>): int {
    if |owners| == 0 then 0
    else Net(entries, Account(kind, owners[0])) + SumOverOwners(entries, kind, owners[1..])
  }

  predicate Distinct(owners: seq<Option<string>>) {
    forall i, j | 0 <= i < j < |owners| :: owners[i] != owners[j]
  }

  lemma {:induction false} SumOverOwnersStep(entries: seq<EntrySpec>, e: EntrySpec, kind: AccountType,
                                             owners: seq<Option<string>>)
    requires Distinct(owners)
    ensures SumOverOwners(entries + [e], kind, owners)
            == SumOverOwners(entries, kind, owners)
               + if e.account.kind == kind && e.account.owner in owners then Signed(e) else 0
  {
    if |owners| > 0 {
      assert (entries + [e])[..|entries|] == entries;
      SumOverOwnersStep(entries, e, kind, owners[1..]);
    }
  }

  lemma {:induction false} EmptySumOverOwners(kind: AccountType, owners: seq<Option<string>>)
    ensures SumOverOwners([], kind, owners) == 0
  {
    if |owners| > 0 {
      EmptySumOverOwners(kind, owners[1..]);
    }
  }

  /** sumByType over the raw rows is the sum of getBalance over the owners. */
  lemma {:induction false} SumByTypeIsSumOverOwners(entries: seq<EntrySpec>, kind: AccountType,
                                                    owners: seq<Option<string>>)
    requires Distinct(owners) && forall e <- entries :: e.account.kind == kind ==> e.account.owner in owners
    ensures NetOfKind(entries, kind) == SumOverOwners(entries, kind, owners)
  {
    if |entries| == 0 {
      EmptySumOverOwners(kind, owners);
    } else {
      var shorter, e := entries[..|entries| - 1], entries[|entries| - 1];
      assert entries == shorter + [e];
      SumByTypeIsSumOverOwners(shorter, kind, owners);
      SumOverOwnersStep(shorter, e, kind, owners);
    }
  }

  // ---------------------------------------------------------------- what the figures are

  /** What the payout table still owes to owners of one kind. */
  function Unpaid(payouts: seq<Payout>, kind: AccountType): int {
    if |payouts| == 0 then 0
    else
      var row := payouts[|payouts| - 1];
      Unpaid(payouts[..|payouts| - 1], kind)
      + if row.account.kind == kind && row.status != PayoutStatus.SUCCESS then row.amountKobo else 0
  }

  function OwedToOwners(payouts: seq<Payout>, kind: AccountType, owners: seq<Option<string>>): int {
    if |owners| == 0 then 0
    else Owed(payouts, Account(kind, owners[0])) + OwedToOwners(payouts, kind, owners[1..])
  }

  function Including(owners: seq<Option<string>>, owner: Option<string>): seq<Option<string>> {
    if owner in owners then owners else owners + [owner]
  }

  /** The owners appearing in these rows and payouts. */
  function OwnersIn(entries: seq<EntrySpec>, payouts: seq<Payout>): seq<Option<string>> {
    if |entries| > 0 then Including(OwnersIn(entries[..|entries| - 1], payouts), entries[|entries| - 1].account.owner)
    else if |payouts| > 0 then Including(OwnersIn([], payouts[..|payouts| - 1]), payouts[|payouts| - 1].account.owner)
    else []
  }

  lemma {:induction false} OwnersCover(entries: seq<EntrySpec>, payouts: seq<Payout>)
    ensures var owners := OwnersIn(entries, payouts);
            && Distinct(owners) && (forall e <- entries :: e.account.owner in owners)
            && (forall row <- payouts :: row.account.owner in owners)
  {
    if |entries| > 0 {
      OwnersCover(entries[..|entries| - 1], payouts);
    } else if |payouts| > 0 {
      OwnersCover([], payouts[..|payouts| - 1]);
    }
  }

  lemma {:induction false} OwedStep(payouts: seq<Payout>, row: Payout, kind: AccountType, owners: seq<Option<string>>)
    requires Distinct(owners)
    ensures OwedToOwners(payouts + [row], kind, owners)
            == OwedToOwners(payouts, kind, owners)
               + if row.account.kind == kind && row.account.owner in owners && row.status != PayoutStatus.SUCCESS
                 then row.amountKobo else 0
  {
    if |owners| > 0 {
      assert (payouts + [row])[..|payouts|] == payouts;
      OwedStep(payouts, row, kind, owners[1..]);
    }
  }

  lemma {:induction false} UnpaidIsOwed(payouts: seq<Payout>, kind: AccountType, owners: seq<Option<string>>)
    requires Distinct(owners) && forall row <- payouts :: row.account.owner in owners
    ensures Unpaid(payouts, kind) == OwedToOwners(payouts, kind, owners)
  {
    if |payouts| == 0 {
      NothingOwed(kind, owners);
    } else {
      var shorter, row := payouts[..|payouts| - 1], payouts[|payouts| - 1];
      assert payouts == shorter + [row];
      UnpaidIsOwed(shorter, kind, owners);
      OwedStep(shorter, row, kind, owners);
    }
  }

  lemma {:induction false} NothingOwed(kind: AccountType, owners: seq<Option<string>>)
    ensures OwedToOwners([], kind, owners) == 0
  {
    if |owners| > 0 {
      NothingOwed(kind, owners[1..]);
    }
  }

  lemma {:induction false} BalancesAreOwed(b: Books, kind: AccountType, owners: seq<Option<string>>)
    requires BalancesOk(b) && IsPayable(kind)
    ensures SumOverOwners(Rows(b.journal), kind, owners) == OwedToOwners(b.payouts, kind, owners)
  {
    if |owners| > 0 {
      assert Balance(b, Account(kind, owners[0])) == Owed(b.payouts, Account(kind, owners[0]));
      BalancesAreOwed(b, kind, owners[1..]);
    }
  }

  lemma KindIsUnpaid(b: Books, kind: AccountType)
    requires BalancesOk(b) && IsPayable(kind)
    ensures NetOfKind(Rows(b.journal), kind) == Unpaid(b.payouts, kind)
  {
    var owners := OwnersIn(Rows(b.journal), b.payouts);
    OwnersCover(Rows(b.journal), b.payouts);
    SumByTypeIsSumOverOwners(Rows(b.journal), kind, owners);
    BalancesAreOwed(b, kind, owners);
    UnpaidIsOwed(b.payouts, kind, owners);
  }

  /** Everything posted, whichever side it is on. */
  function Turnover(entries: seq<EntrySpec>): int {
    if |entries| == 0 then 0 else Turnover(entries[..|entries| - 1]) + entries[|entries| - 1].amountKobo
  }

  lemma {:induction false} TurnoverIsBothSides(entries: seq<EntrySpec>)
    ensures Turnover(entries) == Total(entries, Debit) + Total(entries, Credit)
  {
    if |entries| > 0 {
      TurnoverIsBothSides(entries[..|entries| - 1]);
    }
  }

  /** Of any tables whatever, corrupt ones too: the trial balance is reported as balanced exactly if clearing equals
      what all other accounts are owed, the totals differ by what is missing, and together they are everything posted.
      */
  lemma TrialBalanceMeans(figures: Reads, providerBalanceKobo: int)
    ensures var r, rows := Reconcile(figures, providerBalanceKobo), Rows(figures.trial.journal);
            var missing := NetOfKind(rows, ProcessorClearing) - NetOfKind(rows, EntertainerPayable)
                           - NetOfKind(rows, VenuePayable) - NetOfKind(rows, PlatformRevenue);
            && (r.trialBalanced <==> missing == 0) && r.totalDebitsKobo - r.totalCreditsKobo == missing
            && r.totalDebitsKobo + r.totalCreditsKobo == Turnover(rows)
  {
    KindsPartition(Rows(figures.trial.journal));
    TurnoverIsBothSides(Rows(figures.trial.journal));
  }

  /** What each figure of the report stands for in the payment and payout tables of its moment: payables are the unpaid
      payouts of that kind, clearing is what was settled less what was paid out, revenue is what was settled and is owed
      to nobody, in flight is what is PROCESSING; and the drift is what is then missing from the provider's balance. */
  lemma FiguresAre(serial: bool, history: seq<Action>, at: Moments, providerBalanceKobo: int)
    requires Within(at, history)
    ensures var r, revenue := Reconcile(ReadsAt(serial, history, at), providerBalanceKobo),
                BooksAt(serial, history, at.revenue);
            var clearing, inFlight := BooksAt(serial, history, at.clearing), BooksAt(serial, history, at.inFlight);
            && r.trialBalanced && r.totalDebitsKobo == r.totalCreditsKobo
            && r.entertainerPayableKobo
               == Unpaid(BooksAt(serial, history, at.entertainers).payouts, EntertainerPayable)
            && r.venuePayableKobo == Unpaid(BooksAt(serial, history, at.venues).payouts, VenuePayable)
            && r.ledgerClearingKobo == SettledGross(clearing.payments) - PaidOut(clearing.payouts)
            && r.platformRevenueKobo
               == SettledGross(revenue.payments) - PaidOut(revenue.payouts)
                  - Unpaid(revenue.payouts, EntertainerPayable) - Unpaid(revenue.payouts, VenuePayable)
            && r.inFlightPayoutsKobo == InStatus(inFlight.payouts, PROCESSING)
            && r.expectedProviderBalanceKobo == r.ledgerClearingKobo - r.inFlightPayoutsKobo
            && r.providerBalanceKobo == providerBalanceKobo == r.expectedProviderBalanceKobo + r.driftKobo
  {
    MomentIs(serial, history, at.entertainers);
    MomentIs(serial, history, at.venues);
    MomentIs(serial, history, at.clearing);
    MomentIs(serial, history, at.revenue);
    LedgerIdentity(serial, history[..at.trial]);
  }

  lemma MomentIs(serial: bool, history: seq<Action>, moment: nat)
    requires moment <= |history|
    ensures var b := BooksAt(serial, history, moment);
            && NetOfKind(Rows(b.journal), EntertainerPayable) == Unpaid(b.payouts, EntertainerPayable)
            && NetOfKind(Rows(b.journal), VenuePayable) == Unpaid(b.payouts, VenuePayable)
            && Balance(b, CLEARING) == SettledGross(b.payments) - PaidOut(b.payouts)
            && Balance(b, CLEARING)
               == NetOfKind(Rows(b.journal), EntertainerPayable) + NetOfKind(Rows(b.journal), VenuePayable)
                  + Balance(b, REVENUE)
  {
    Guarantees.AlwaysInv(serial, history[..moment]);
    LedgerIdentity(serial, history[..moment]);
    KindIsUnpaid(BooksAt(serial, history, moment), EntertainerPayable);
    KindIsUnpaid(BooksAt(serial, history, moment), VenuePayable);
  }

  // ---------------------------------------------------------------- drift

  function PaidKobo(charge: Charge): int {
    if charge.Paid? then charge.amountKobo else 0
  }

  function ChargesReceived(s: State, n: nat): int
    requires n <= |s.charges|
  {
    if n == 0 then 0 else ChargesReceived(s, n - 1) + PaidKobo(s.charges[n - 1])
  }

  /** What the provider has debited for the first k attempts of payout p and not given back. */
  function HeldKobo(s: State, p: nat, k: nat): int {
    if k == 0 then 0
    else HeldKobo(s, p, k - 1) + if LiveAt(s, Reference(p, k)) then s.transfers[Reference(p, k)].amountKobo else 0
  }

  function TransfersHeld(s: State, n: nat): int
    requires n <= |s.books.payouts|
  {
    if n == 0 then 0 else TransfersHeld(s, n - 1) + HeldKobo(s, n - 1, s.books.payouts[n - 1].attempts)
  }

  /** With no fees and no float: every paid charge in, every transfer not bounced or returned out. */
  function ProviderBalance(s: State): int {
    ChargesReceived(s, |s.charges|) - TransfersHeld(s, |s.books.payouts|)
  }

  /** Paid charges among the first n that are not settled yet. */
  function Unsettled(s: State, n: nat): int
    requires n <= |s.charges| == |s.books.payments|
  {
    if n == 0 then 0
    else Unsettled(s, n - 1) + if IsSettled(s.books, n - 1) then 0 else PaidKobo(s.charges[n - 1])
  }

  predicate CountsAsSent(row: Payout) {
    row.status == PROCESSING || row.status == PayoutStatus.SUCCESS
  }

  predicate HasLiveTransfer(s: State, p: nat)
    requires HasPayout(s, p)
  {
    LiveAt(s, Reference(p, s.books.payouts[p].attempts))
  }

  /** PROCESSING or SUCCESS payouts the provider holds no live transfer for. */
  function SentOnPaperOnly(s: State, n: nat): int
    requires n <= |s.books.payouts|
  {
    if n == 0 then 0
    else
      var row := s.books.payouts[n - 1];
      SentOnPaperOnly(s, n - 1) + if CountsAsSent(row) && !HasLiveTransfer(s, n - 1) then row.amountKobo else 0
  }

  /** Other payouts that nevertheless have a live transfer. */
  function LiveOffPaper(s: State, n: nat): int
    requires n <= |s.books.payouts|
  {
    if n == 0 then 0
    else
      var row := s.books.payouts[n - 1];
      LiveOffPaper(s, n - 1) + if !CountsAsSent(row) && HasLiveTransfer(s, n - 1) then row.amountKobo else 0
  }

  lemma {:induction false} HeldIsCurrent(s: State, p: nat, k: nat)
    requires LiveIsCurrent(s) && TransfersOk(s) && HasPayout(s, p) && k <= s.books.payouts[p].attempts
    ensures HeldKobo(s, p, k)
            == if k == s.books.payouts[p].attempts && k > 0 && HasLiveTransfer(s, p)
                then s.books.payouts[p].amountKobo else 0
  {
    if k > 0 {
      HeldIsCurrent(s, p, k - 1);
      var ref := Reference(p, k);
      if LiveAt(s, ref) {
        assert TransferOk(s, ref);
      }
    }
  }

  lemma NoZerothAttempt(s: State, p: nat)
    requires TransfersOk(s)
    ensures !LiveAt(s, Reference(p, 0))
  {
    OnlyClaimedIsSent(s, Reference(p, 0));
  }

  lemma {:induction false} PayoutDrift(s: State, n: nat)
    requires LiveIsCurrent(s) && TransfersOk(s) && n <= |s.books.payouts|
    ensures PaidOut(s.books.payouts[..n]) + InStatus(s.books.payouts[..n], PROCESSING) - TransfersHeld(s, n)
            == SentOnPaperOnly(s, n) - LiveOffPaper(s, n)
  {
    if n > 0 {
      PayoutDrift(s, n - 1);
      assert s.books.payouts[..n][..n - 1] == s.books.payouts[..n - 1];
      HeldIsCurrent(s, n - 1, s.books.payouts[n - 1].attempts);
      NoZerothAttempt(s, n - 1);
    }
  }

  lemma {:induction false} ChargeDrift(s: State, n: nat)
    requires ChargesOk(s) && n <= |s.charges|
    ensures ChargesReceived(s, n) - SettledGross(s.books.payments[..n]) == Unsettled(s, n)
  {
    if n > 0 {
      ChargeDrift(s, n - 1);
      assert s.books.payments[..n][..n - 1] == s.books.payments[..n - 1];
    }
  }

  /** Were everything read at once, the drift would be exactly: paid charges not settled yet, plus payouts counted as
      sent without a live transfer, minus live transfers of payouts not counted as sent. */
  lemma {:induction false} DriftAtOnce(actions: seq<Action>)
    ensures var s := Run(true, INITIAL, actions);
            && |s.charges| == |s.books.payments|
            && ProviderBalance(s) - Balance(s.books, CLEARING) + InStatus(s.books.payouts, PROCESSING)
               == Unsettled(s, |s.charges|) + SentOnPaperOnly(s, |s.books.payouts|) - LiveOffPaper(s, |s.books.payouts|)
  {
    ReachableSerial(actions);
    var s := Run(true, INITIAL, actions);
    PayoutDrift(s, |s.books.payouts|);
    ChargeDrift(s, |s.charges|);
    assert s.books.payouts[..|s.books.payouts|] == s.books.payouts;
    assert s.books.payments[..|s.books.payments|] == s.books.payments;
  }

  /** Amounts of the payouts that entered a status, less those that left it. */
  function Entered(before: seq<Payout>, after: seq<Payout>, status: PayoutStatus): int {
    if |after| == 0 then 0
    else
      var p := |after| - 1;
      Entered(if |before| <= p then before else before[..p], after[..p], status)
      + (if after[p].status == status then after[p].amountKobo else 0)
      - (if p < |before| && before[p].status == status then before[p].amountKobo else 0)
  }

  /** Gross of the payments settled in between. */
  function SettledBetween(before: seq<Payment>, after: seq<Payment>): int {
    if |after| == 0 then 0
    else
      var t := |after| - 1;
      SettledBetween(if |before| <= t then before else before[..t], after[..t])
      + if after[t].status == PaymentStatus.SUCCESS && !(t < |before| && before[t].status == PaymentStatus.SUCCESS)
        then after[t].terms.grossAmountKobo else 0
  }

  lemma {:induction false} EnteredIsDifference(before: seq<Payout>, after: seq<Payout>, status: PayoutStatus)
    requires |before| <= |after|
    ensures InStatus(after, status) - InStatus(before, status) == Entered(before, after, status)
  {
    if |after| > 0 {
      var p := |after| - 1;
      EnteredIsDifference(if |before| <= p then before else before[..p], after[..p], status);
    }
  }

  lemma {:induction false} PaidOutIsSuccess(payouts: seq<Payout>)
    ensures PaidOut(payouts) == InStatus(payouts, PayoutStatus.SUCCESS)
  {
    if |payouts| > 0 {
      PaidOutIsSuccess(payouts[..|payouts| - 1]);
    }
  }

  lemma {:induction false} SettledIsDifference(before: seq<Payment>, after: seq<Payment>)
    requires |before| <= |after|
    requires forall t | 0 <= t < |before| && before[t].status == PaymentStatus.SUCCESS ::
               after[t].status == PaymentStatus.SUCCESS && after[t].terms == before[t].terms
    ensures SettledGross(after) - SettledGross(before) == SettledBetween(before, after)
  {
    if |after| > 0 {
      var t := |after| - 1;
      SettledIsDifference(if |before| <= t then before else before[..t], after[..t]);
    }
  }

  /** The clearing balance moves by what was settled and, the other way, by what was paid out. */
  lemma {:induction false} ClearingMoves(serial: bool, history: seq<Action>, moment: nat)
    requires moment <= |history|
    ensures var b, c := BooksAt(serial, history, moment), Run(serial, INITIAL, history).books;
            Balance(c, CLEARING) - Balance(b, CLEARING)
            == SettledBetween(b.payments, c.payments) - Entered(b.payouts, c.payouts, PayoutStatus.SUCCESS)
  {
    Guarantees.AlwaysInv(serial, history[..moment]);
    Guarantees.AlwaysInv(serial, history);
    Guarantees.RunExtends(serial, history[..moment], history);
    var b, c := BooksAt(serial, history, moment), Run(serial, INITIAL, history).books;
    forall t | 0 <= t < |b.payments| && b.payments[t].status == PaymentStatus.SUCCESS
      ensures c.payments[t].status == PaymentStatus.SUCCESS && c.payments[t].terms == b.payments[t].terms
    {
      assert IsSettled(b, t);
    }
    SettledIsDifference(b.payments, c.payments);
    PaidOutIsSuccess(b.payouts);
    PaidOutIsSuccess(c.payouts);
    EnteredIsDifference(b.payouts, c.payouts, PayoutStatus.SUCCESS);
  }

  /** The reported drift, with clearing and in-flight amounts read at any moments before the provider's balance:
      the drift at the end of the run, plus what was settled and minus what was paid out since clearing was read,
      minus what entered PROCESSING since the in-flight amounts were read. */
  lemma {:induction false} DriftDecomposition(history: seq<Action>, at: Moments)
    requires Within(at, history)
    ensures var s := Run(true, INITIAL, history);
            var c, i := BooksAt(true, history, at.clearing), BooksAt(true, history, at.inFlight);
            && |s.charges| == |s.books.payments|
            && Reconcile(ReadsAt(true, history, at), ProviderBalance(s)).driftKobo
               == Unsettled(s, |s.charges|) + SentOnPaperOnly(s, |s.books.payouts|) - LiveOffPaper(s, |s.books.payouts|)
                  + SettledBetween(c.payments, s.books.payments)
                  - Entered(c.payouts, s.books.payouts, PayoutStatus.SUCCESS)
                  - Entered(i.payouts, s.books.payouts, PROCESSING)
  {
    DriftAtOnce(history);
    ClearingMoves(true, history, at.clearing);
    Guarantees.RunExtends(true, history[..at.inFlight], history);
    EnteredIsDifference(BooksAt(true, history, at.inFlight).payouts, Run(true, INITIAL, history).books.payouts,
                        PROCESSING);
  }

  function AllAt(moment: nat): Moments {
    Moments(moment, moment, moment, moment, moment, moment)
  }

  /** The next step of this worker records the success of payout p, which is PROCESSING. */
  predicate RecordsSuccess(s: State, w: nat, p: nat) {
    && w in s.workers && s.workers[w].pc.MarkCommit? && s.workers[w].pc.p == p && HasPayout(s, p)
    && CanSucceed(s.books, p, s.workers[w].pc.ref) && s.books.payouts[p].status == PROCESSING
  }

  lemma OneSuccess(s: State, w: nat, choice: Choice, p: nat)
    requires Inv(s) && RecordsSuccess(s, w, p)
    ensures var b, c, amount := s.books, Step(s, w, choice).books, s.books.payouts[p].amountKobo;
            && Balance(c, CLEARING) == Balance(b, CLEARING) - amount
            && InStatus(c.payouts, PROCESSING) == InStatus(b.payouts, PROCESSING) - amount
  {
    var b, pc := s.books, s.workers[w].pc;
    var c := SucceedPayout(b, p, pc.ref, pc.entries);
    assert WorkerOk(s, s.workers[w]);
    SucceedKeepsConsistent(b, p, pc.ref, pc.entries);
    UpdatePaidOut(b.payouts, p, c.payouts[p]);
    UpdateInStatus(b.payouts, p, c.payouts[p], PROCESSING);
  }

  /** While one payout's success is recorded, the report is right before and right after (whatever drift there is, it
      is the same); but clearing read before and in-flight amounts read after report its amount as missing. */
  lemma TornBySuccess(serial: bool, history: seq<Action>, w: nat, choice: Choice, p: nat, providerBalanceKobo: int)
    requires RecordsSuccess(Run(serial, INITIAL, history), w, p)
    ensures var whole, n := history + [Advance(w, choice)], |history|;
            var before := Reconcile(ReadsAt(serial, whole, AllAt(n)), providerBalanceKobo).driftKobo;
            && Reconcile(ReadsAt(serial, whole, AllAt(n + 1)), providerBalanceKobo).driftKobo == before
            && Reconcile(ReadsAt(serial, whole, AllAt(n).(inFlight := n + 1)), providerBalanceKobo).driftKobo
               == before - Run(serial, INITIAL, history).books.payouts[p].amountKobo
  {
    var whole := history + [Advance(w, choice)];
    assert whole[..|history|] == history && whole[..|whole|] == whole;
    LastSuccess(serial, history, w, choice, p);
  }

  lemma LastSuccess(serial: bool, history: seq<Action>, w: nat, choice: Choice, p: nat)
    requires RecordsSuccess(Run(serial, INITIAL, history), w, p)
    ensures var b, c := Run(serial, INITIAL, history).books, Run(serial, INITIAL, history + [Advance(w, choice)]).books;
            && Balance(c, CLEARING) == Balance(b, CLEARING) - b.payouts[p].amountKobo
            && InStatus(c.payouts, PROCESSING) == InStatus(b.payouts, PROCESSING) - b.payouts[p].amountKobo
  {
    Guarantees.AlwaysInv(serial, history);
    assert (history + [Advance(w, choice)])[..|history|] == history;
    OneSuccess(Run(serial, INITIAL, history), w, choice, p);
  }

  lemma {:induction false} UpdateInStatus(payouts: seq<Payout>, p: nat, row: Payout, status: PayoutStatus)
    requires p < |payouts|
    ensures InStatus(payouts[p := row], status)
            == InStatus(payouts, status) + (if row.status == status then row.amountKobo else 0)
               - (if payouts[p].status == status then payouts[p].amountKobo else 0)
  {
    var shorter := payouts[..|payouts| - 1];
    if p < |shorter| {
      UpdateInStatus(shorter, p, row, status);
      assert payouts[p := row][..|payouts| - 1] == shorter[p := row];
    } else {
      assert payouts[p := row][..|payouts| - 1] == shorter;
    }
  }

  lemma {:induction false} NothingUnsettled(s: State, n: nat)
    requires n <= |s.charges| == |s.books.payments|
    requires forall t | 0 <= t < n && s.charges[t].Paid? :: IsSettled(s.books, t)
    ensures Unsettled(s, n) == 0
  {
    if n > 0 {
      NothingUnsettled(s, n - 1);
    }
  }

  lemma {:induction false} NothingMismatched(s: State, n: nat)
    requires n <= |s.books.payouts|
    requires forall p | 0 <= p < n :: CountsAsSent(s.books.payouts[p]) <==> HasLiveTransfer(s, p)
    ensures SentOnPaperOnly(s, n) == 0 && LiveOffPaper(s, n) == 0
  {
    if n > 0 {
      NothingMismatched(s, n - 1);
    }
  }

  lemma {:induction false} NothingEntered(payouts: seq<Payout>, status: PayoutStatus)
    ensures Entered(payouts, payouts, status) == 0
  {
    EnteredIsDifference(payouts, payouts, status);
  }

  /** No drift is reported when, at the end, every paid charge is settled and payout statuses match the provider, and
      neither payments nor payouts changed since they were read. */
  lemma {:induction false} NoDriftWhenUpToDate(history: seq<Action>, at: Moments)
    requires Within(at, history)
    requires var s := Run(true, INITIAL, history);
             && (forall t | 0 <= t < |s.charges| && s.charges[t].Paid? :: IsSettled(s.books, t))
             && (forall p | 0 <= p < |s.books.payouts| :: CountsAsSent(s.books.payouts[p]) <==> HasLiveTransfer(s, p))
             && BooksAt(true, history, at.clearing).payments == s.books.payments
             && BooksAt(true, history, at.clearing).payouts == s.books.payouts
             && BooksAt(true, history, at.inFlight).payouts == s.books.payouts
    ensures Reconcile(ReadsAt(true, history, at), ProviderBalance(Run(true, INITIAL, history))).driftKobo == 0
  {
    var s := Run(true, INITIAL, history);
    DriftDecomposition(history, at);
    NothingUnsettled(s, |s.charges|);
    NothingMismatched(s, |s.books.payouts|);
    NothingEntered(s.books.payouts, PayoutStatus.SUCCESS);
    NothingEntered(s.books.payouts, PROCESSING);
    SettledIsDifference(s.books.payments, s.books.payments);
  }

  /** For one, from the empty system on and with one job per payout: read at any one moment from its end nothing is
      missing, and the torn report misses 5,000 naira. */
  lemma TornReportIsReachable()
    ensures exists history: seq<Action>, at: Moments :: Within(at, history)
              && var balance := ProviderBalance(Run(true, INITIAL, history));
                 && Reconcile(ReadsAt(true, history, AllAt(|history|)), balance).driftKobo == 0
                 && Reconcile(ReadsAt(true, history, at), balance).driftKobo == -500000
  {
    var arrived, n := UpToArrival(), |UpToArrival()|;
    var whole, at := arrived + [Advance(1, GO)], AllAt(n).(inFlight := n + 1);
    ReachesArrival(true);
    assert RecordsSuccess(ARRIVED, 1, 0);
    var s := Run(true, INITIAL, whole);
    TornBySuccess(true, arrived, 1, GO, 0, ProviderBalance(s));
    EndsUpToDate(s);
    assert whole[..|whole|] == whole && whole[..|whole| - 1] == arrived;
    NoDriftWhenUpToDate(whole, AllAt(|whole|));
    assert Within(at, whole);
  }

  /** The payment is settled, its payout sent. */
  lemma EndsUpToDate(s: State)
    requires s == Apply(true, ARRIVED, Advance(1, GO))
    ensures forall t | 0 <= t < |s.charges| && s.charges[t].Paid? :: IsSettled(s.books, t)
    ensures forall p | 0 <= p < |s.books.payouts| :: CountsAsSent(s.books.payouts[p]) <==> HasLiveTransfer(s, p)
  {
    assert |s.charges| == 1 && |s.books.payouts| == 1 && s.books.payouts[0].attempts == 1;
    assert LiveAt(s, Reference(0, 1));
  }
}
