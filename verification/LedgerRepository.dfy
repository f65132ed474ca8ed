/** LedgerRepository: find-or-create accounts, append rows, and balances computed from grouped sums. */
module LedgerRepository {
  import opened Wrappers
  import opened Ledger

  // ---------------------------------------------------------------- the key post() looks accounts up by

  function TypeName(kind: AccountType): string {
    match kind
    case EntertainerPayable => "ENTERTAINER_PAYABLE"
    case VenuePayable => "VENUE_PAYABLE"
    case PlatformRevenue => "PLATFORM_REVENUE"
    case ProcessorClearing => "PROCESSOR_CLEARING"
  }

  function OwnerText(account: Account): string {
    if account.owner.Some? then account.owner.value else ""
  }

  /** `${type}:${ownerId ?? ''}` */
  function Key(account: Account): string {
    TypeName(account.kind) + ":" + OwnerText(account)
  }

  lemma KeyMeansTypeAndOwnerText(a: Account, b: Account)
    ensures Key(a) == Key(b) <==> a.kind == b.kind && OwnerText(a) == OwnerText(b)
  {
    if Key(a) == Key(b) {
      assert Key(a)[0] == TypeName(a.kind)[0] && Key(a)[1] == TypeName(a.kind)[1];
      assert Key(b)[0] == TypeName(b.kind)[0] && Key(b)[1] == TypeName(b.kind)[1];
      assert a.kind == b.kind;
      assert OwnerText(a) == Key(a)[|TypeName(a.kind)| + 1..] == OwnerText(b);
    }
  }

  function Keys(entries: seq<EntrySpec>): (keys: seq<string>)
    ensures |keys| == |entries|
  {
    seq(|entries|, i requires 0 <= i < |entries| => Key(entries[i].account))
  }

  /** The first position, not before from, that holds the key of position i. */
  function First(keys: seq<string>, i: nat, from: nat): (first: nat)
    requires from <= i < |keys|
    ensures from <= first <= i
    decreases i - from
  {
    if keys[from] == keys[i] then from else First(keys, i, from + 1)
  }

  lemma {:induction false} FirstIsFirst(keys: seq<string>, i: nat, from: nat)
    requires from <= i < |keys|
    ensures keys[First(keys, i, from)] == keys[i]
    ensures keys[i] !in keys[from..First(keys, i, from)]
    decreases i - from
  {
    if keys[from] != keys[i] {
      FirstIsFirst(keys, i, from + 1);
      var first := First(keys, i, from);
      assert keys[from..first] == [keys[from]] + keys[from + 1..first];
    }
  }

  lemma {:induction false} SameKeySameFirst(keys: seq<string>, i: nat, j: nat, from: nat)
    requires from <= i < |keys| && from <= j < |keys| && keys[i] == keys[j]
    ensures First(keys, i, from) == First(keys, j, from)
    decreases i + j - 2 * from
  {
    if keys[from] != keys[i] {
      SameKeySameFirst(keys, i, j, from + 1);
    }
  }

  /** The account line i is written to: that of the first line with its key. */
  function LandsOn(entries: seq<EntrySpec>, i: nat): Account
    requires i < |entries|
  {
    entries[First(Keys(entries), i, 0)].account
  }

  predicate LandsAtHome(entries: seq<EntrySpec>, i: nat)
    requires i < |entries|
  {
    LandsOn(entries, i) == entries[i].account
  }

  predicate Clash(a: Account, b: Account) {
    a.kind == b.kind && a.owner == None && b.owner == Some("")
  }

  /** Two lines of one type, one with no owner and one with the empty owner. */
  predicate KeysClash(entries: seq<EntrySpec>) {
    exists i, j | 0 <= i < |entries| && 0 <= j < |entries| :: Clash(entries[i].account, entries[j].account)
  }

  lemma LandsOnSameKey(entries: seq<EntrySpec>, i: nat)
    requires i < |entries|
    ensures Key(LandsOn(entries, i)) == Key(entries[i].account)
  {
    var keys := Keys(entries);
    FirstIsFirst(keys, i, 0);
    assert keys[First(keys, i, 0)] == Key(LandsOn(entries, i));
    assert keys[i] == Key(entries[i].account);
  }

  lemma SameKeySameLanding(entries: seq<EntrySpec>, i: nat, j: nat)
    requires i < |entries| && j < |entries| && Key(entries[i].account) == Key(entries[j].account)
    ensures LandsOn(entries, i) == LandsOn(entries, j)
  {
    var keys := Keys(entries);
    assert keys[i] == Key(entries[i].account) && keys[j] == Key(entries[j].account);
    SameKeySameFirst(keys, i, j, 0);
  }

  /** Every line is written to its own account exactly when no posting mixes a missing and an empty owner. */
  lemma LinesLandOnTheirAccounts(entries: seq<EntrySpec>)
    ensures AsLanded(entries) == entries <==> !KeysClash(entries)
  {
    if KeysClash(entries) {
      var i, j :| 0 <= i < |entries| && 0 <= j < |entries| && Clash(entries[i].account, entries[j].account);
      KeyMeansTypeAndOwnerText(entries[i].account, entries[j].account);
      SameKeySameLanding(entries, i, j);
      assert !LandsAtHome(entries, i) || !LandsAtHome(entries, j);
      assert AsLanded(entries)[i] != entries[i] || AsLanded(entries)[j] != entries[j];
    } else {
      forall i | 0 <= i < |entries| ensures LandsAtHome(entries, i) {
        LandsOnSameKey(entries, i);
        var a, b := LandsOn(entries, i), entries[i].account;
        KeyMeansTypeAndOwnerText(a, b);
        assert !Clash(a, b) && !Clash(b, a);
      }
      assert forall i | 0 <= i < |entries| :: LandsAtHome(entries, i) ==> AsLanded(entries)[i] == entries[i];
    }
  }

  /** For one: a line without an owner and a line of the empty owner end up on the same account. */
  lemma MixedOwnersLandTogether(amountKobo: int)
    ensures var missing, empty := Account(VenuePayable, None), Account(VenuePayable, Some(""));
            var entries := [EntrySpec(missing, Debit, amountKobo), EntrySpec(empty, Credit, amountKobo)];
            LandsOn(entries, 0) == LandsOn(entries, 1) && AsLanded(entries) != entries
  {
    var entries := [EntrySpec(Account(VenuePayable, None), Debit, amountKobo),
                    EntrySpec(Account(VenuePayable, Some("")), Credit, amountKobo)];
    KeyMeansTypeAndOwnerText(entries[0].account, entries[1].account);
    SameKeySameLanding(entries, 0, 1);
    assert Clash(entries[0].account, entries[1].account);
    LinesLandOnTheirAccounts(entries);
  }

  /** The service's own postings never clash. */
  lemma ServicePostingsNeverClash(payment: PaymentForPosting, split: Split, account: Account, amountKobo: int)
    requires CanPayOut(account, amountKobo)
    ensures !KeysClash(PaymentLines(payment, split))
    ensures !KeysClash(PayoutLines(account, amountKobo)) && !KeysClash(ReversalLines(account, amountKobo))
  {
  }

  // ---------------------------------------------------------------- the repository

  /** accountId is the position of the account's row. */
  datatype LedgerRow = LedgerRow(transactionId: nat, accountId: nat, direction: Direction, amountKobo: int)

  predicate Unique(accounts: seq<Account>) {
    forall i, j | 0 <= i < j < |accounts| :: accounts[i] != accounts[j]
  }

  /** Line k's key leads to the row of the account it lands on. */
  predicate Leads(accountIds: map<string, nat>, accounts: seq<Account>, entries: seq<EntrySpec>, keys: seq<string>,
                  k: nat)
    requires k < |entries| == |keys|
  {
    && keys[k] in accountIds && accountIds[keys[k]] < |accounts|
    && accounts[accountIds[keys[k]]] == entries[First(keys, k, 0)].account
  }

  /** The key map after the first n lines: exactly their keys, each leading to the account its line lands on. */
  ghost predicate Resolved(accountIds: map<string, nat>, accounts: seq<Account>, entries: seq<EntrySpec>,
                           keys: seq<string>, n: nat)
    requires n <= |entries| == |keys|
  {
    && (forall k | 0 <= k < n :: Leads(accountIds, accounts, entries, keys, k))
    && (forall key <- accountIds.Keys :: key in keys[..n])
  }

  lemma StillLeads(accountIds: map<string, nat>, before: seq<Account>, after: seq<Account>, entries: seq<EntrySpec>,
                   keys: seq<string>, k: nat, key: string, id: nat)
    requires k < |entries| == |keys| && Leads(accountIds, before, entries, keys, k) && before <= after
             && key !in accountIds
    ensures Leads(accountIds[key := id], after, entries, keys, k)
  {
  }

  lemma NewKey(accountIds: map<string, nat>, before: seq<Account>, after: seq<Account>, entries: seq<EntrySpec>,
               keys: seq<string>, n: nat, id: nat)
    requires n < |entries| == |keys| && Resolved(accountIds, before, entries, keys, n) && before <= after
    requires keys[n] !in accountIds && id < |after| && after[id] == entries[n].account
    ensures Resolved(accountIds[keys[n] := id], after, entries, keys, n + 1)
  {
    var grown := accountIds[keys[n] := id];
    forall k | 0 <= k < n ensures Leads(grown, after, entries, keys, k) {
      StillLeads(accountIds, before, after, entries, keys, k, keys[n], id);
    }
    var first := First(keys, n, 0);
    FirstIsFirst(keys, n, 0);
    assert first < n ==> Leads(accountIds, before, entries, keys, first);
    assert keys[..n + 1] == keys[..n] + [keys[n]];
  }

  lemma KnownKey(accountIds: map<string, nat>, accounts: seq<Account>, entries: seq<EntrySpec>, keys: seq<string>,
                 n: nat)
    requires n < |entries| == |keys| && Resolved(accountIds, accounts, entries, keys, n) && keys[n] in accountIds
    ensures Resolved(accountIds, accounts, entries, keys, n + 1)
  {
    assert keys[n] in keys[..n];
    var k :| 0 <= k < n && keys[k] == keys[n];
    assert Leads(accountIds, accounts, entries, keys, k);
    SameKeySameFirst(keys, k, n, 0);
    assert keys[..n + 1] == keys[..n] + [keys[n]];
  }

  predicate Refer(accounts: seq<Account>, rows: seq<LedgerRow>) {
    forall row <- rows :: row.accountId < |accounts|
  }

  /** The rows joined with their accounts. */
  function Joined(accounts: seq<Account>, rows: seq<LedgerRow>): seq<EntrySpec>
    requires Refer(accounts, rows)
  {
    seq(|rows|, i requires 0 <= i < |rows| =>
      assert rows[i] in rows;
      EntrySpec(accounts[rows[i].accountId], rows[i].direction, rows[i].amountKobo))
  }

  /** The lines as they land: each on the account post() resolved for its key. */
  function AsLanded(entries: seq<EntrySpec>): seq<EntrySpec> {
    seq(|entries|, i requires 0 <= i < |entries| => entries[i].(account := LandsOn(entries, i)))
  }

  class LedgerRepository {
    var accounts: seq<Account>
    var rows: seq<LedgerRow>

    predicate Valid()
      reads this
    {
      Unique(accounts) && Refer(accounts, rows)
    }

    constructor ()
      ensures Valid() && rows == [] && accounts == []
    {
      accounts, rows := [], [];
    }

    /** Insert unless it exists, then read: existing accounts keep their ids, and at most this one is added. */
    method ResolveAccountId(account: Account) returns (id: nat)
      requires Valid()
      modifies this`accounts
      ensures Valid() && id < |accounts| && accounts[id] == account
      ensures accounts == if account in old(accounts) then old(accounts) else old(accounts) + [account]
    {
      if account !in accounts {
        accounts := accounts + [account];
      }
      id := 0;
      while id < |accounts| && accounts[id] != account
        invariant id <= |accounts| && account !in accounts[..id]
      {
        assert accounts[..id + 1] == accounts[..id] + [accounts[id]];
        id := id + 1;
      }
      assert accounts[..|accounts|] == accounts;
    }

    /** The key map of post(): every line's key leads to the account of the first line with that key. */
    method ResolveAccounts(entries: seq<EntrySpec>) returns (accountIds: map<string, nat>)
      requires Valid()
      modifies this`accounts
      ensures Valid() && old(accounts) <= accounts
      ensures Resolved(accountIds, accounts, entries, Keys(entries), |entries|)
    {
      accountIds := map[];
      ghost var keys := Keys(entries);
      for i := 0 to |entries|
        invariant Valid() && old(accounts) <= accounts
        invariant Resolved(accountIds, accounts, entries, keys, i)
      {
        var key := Key(entries[i].account);
        assert key == keys[i];
        if key !in accountIds {
          ghost var before := accounts;
          var id := ResolveAccountId(entries[i].account);
          NewKey(accountIds, before, accounts, entries, keys, i, id);
          accountIds := accountIds[key := id];
        } else {
          KnownKey(accountIds, accounts, entries, keys, i);
        }
      }
    }

    /** Balanced lines are appended, each on the account of its key, for the given payment; anything else throws
        and leaves the ledger alone. */
    method Post(transactionId: nat, entries: seq<EntrySpec>) returns (failure: Option<PostingError>)
      requires Valid()
      modifies this
      ensures Valid() && old(accounts) <= accounts
      ensures failure.None? <==> Balanced(entries)
      ensures failure.Some? ==> accounts == old(accounts) && rows == old(rows)
      ensures failure.None? ==>
                && |rows| == |old(rows)| + |entries| && old(rows) <= rows
                && (forall row <- rows[|old(rows)|..] :: row.transactionId == transactionId)
                && Joined(accounts, rows) == Joined(old(accounts), old(rows)) + AsLanded(entries)
                && WritesAll(accounts, rows[|old(rows)|..], entries)
    {
      failure := AssertBalanced(entries);
      if failure.Some? {
        return;
      }
      var accountIds := ResolveAccounts(entries);
      KeysAreKnown(accountIds, accounts, entries);
      var added := NewRows(transactionId, entries, accountIds);
      LandNewRows(transactionId, entries, accountIds, accounts);
      JoinAppends(old(accounts), accounts, rows, added, AsLanded(entries));
      WritesEach(transactionId, entries, accountIds, accounts);
      rows := rows + added;
      assert rows[|old(rows)|..] == added;
    }
  }

  function NewRows(transactionId: nat, entries: seq<EntrySpec>, accountIds: map<string, nat>): (added: seq<LedgerRow>)
    requires forall key <- Keys(entries) :: key in accountIds
    ensures |added| == |entries| && forall row <- added :: row.transactionId == transactionId
  {
    var keys := Keys(entries);
    seq(|entries|, i requires 0 <= i < |entries| =>
      assert keys[i] in keys;
      LedgerRow(transactionId, accountIds[keys[i]], entries[i].direction, entries[i].amountKobo))
  }

  /** The row has the line's direction and amount, on an account of its type and owner; no owner and the empty one are
      not told apart. */
  predicate Writes(accounts: seq<Account>, row: LedgerRow, line: EntrySpec) {
    && row.direction == line.direction && row.amountKobo == line.amountKobo && row.accountId < |accounts|
    && accounts[row.accountId].kind == line.account.kind
    && (accounts[row.accountId].owner == line.account.owner
        || (accounts[row.accountId].owner in {None, Some("")} && line.account.owner in {None, Some("")}))
  }

  predicate WritesAll(accounts: seq<Account>, rows: seq<LedgerRow>, entries: seq<EntrySpec>) {
    |rows| == |entries| && forall i | 0 <= i < |entries| :: Writes(accounts, rows[i], entries[i])
  }

  lemma WritesEach(transactionId: nat, entries: seq<EntrySpec>, accountIds: map<string, nat>, accounts: seq<Account>)
    requires Resolved(accountIds, accounts, entries, Keys(entries), |entries|)
    requires forall key <- Keys(entries) :: key in accountIds
    ensures WritesAll(accounts, NewRows(transactionId, entries, accountIds), entries)
  {
    forall i | 0 <= i < |entries| ensures Writes(accounts, NewRows(transactionId, entries, accountIds)[i], entries[i]) {
      assert Leads(accountIds, accounts, entries, Keys(entries), i);
      LandsOnSameKey(entries, i);
      KeyMeansTypeAndOwnerText(LandsOn(entries, i), entries[i].account);
    }
  }

  lemma KeysAreKnown(accountIds: map<string, nat>, accounts: seq<Account>, entries: seq<EntrySpec>)
    requires Resolved(accountIds, accounts, entries, Keys(entries), |entries|)
    ensures forall key <- Keys(entries) :: key in accountIds
  {
    var keys := Keys(entries);
    forall key <- keys ensures key in accountIds {
      var i :| 0 <= i < |keys| && keys[i] == key;
      assert Leads(accountIds, accounts, entries, keys, i);
    }
  }

  /** This row stands for this line. */
  predicate Lands(accounts: seq<Account>, row: LedgerRow, line: EntrySpec) {
    row.accountId < |accounts| && line == EntrySpec(accounts[row.accountId], row.direction, row.amountKobo)
  }

  lemma LandNewRows(transactionId: nat, entries: seq<EntrySpec>, accountIds: map<string, nat>, accounts: seq<Account>)
    requires forall key <- Keys(entries) :: key in accountIds
    requires Resolved(accountIds, accounts, entries, Keys(entries), |entries|)
    ensures forall i | 0 <= i < |entries| :: Lands(accounts, NewRows(transactionId, entries, accountIds)[i],
                                                   AsLanded(entries)[i])
  {
    forall i | 0 <= i < |entries| ensures Lands(accounts, NewRows(transactionId, entries, accountIds)[i],
                                                AsLanded(entries)[i]) {
      assert Leads(accountIds, accounts, entries, Keys(entries), i);
    }
  }

  lemma JoinAppends(before: seq<Account>, after: seq<Account>, rows: seq<LedgerRow>, added: seq<LedgerRow>,
                    landed: seq<EntrySpec>)
    requires before <= after && Refer(before, rows) && |added| == |landed|
    requires forall i | 0 <= i < |added| :: Lands(after, added[i], landed[i])
    ensures Refer(after, rows + added)
    ensures Joined(after, rows + added) == Joined(before, rows) + landed
  {
  }

  // ---------------------------------------------------------------- balances

  datatype Amount = Amount(direction: Direction, amountKobo: int)

  /** LedgerService.balanceOf: the signed sum in the account's normal sense. */
  function BalanceOf(kind: AccountType, amounts: seq<Amount>): int {
    if |amounts| == 0 then 0
    else
      var a := amounts[|amounts| - 1];
      BalanceOf(kind, amounts[..|amounts| - 1])
      + if (a.direction == Debit) == (kind == ProcessorClearing) then a.amountKobo else -a.amountKobo
  }

  /** The rows of one account. */
  function AmountsOn(entries: seq<EntrySpec>, account: Account): seq<Amount> {
    if |entries| == 0 then []
    else
      var e := entries[|entries| - 1];
      AmountsOn(entries[..|entries| - 1], account) + if e.account == account
          then [Amount(e.direction, e.amountKobo)] else []
  }

  function Sum(amounts: seq<Amount>, direction: Direction): int {
    if |amounts| == 0 then 0
    else
      var a := amounts[|amounts| - 1];
      Sum(amounts[..|amounts| - 1], direction) + if a.direction == direction then a.amountKobo else 0
  }

  /** What GROUP BY direction may return, in either order: one total for each direction that occurs. */
  predicate IsGrouping(groups: seq<Amount>, raw: seq<Amount>) {
    && (forall i, j | 0 <= i < j < |groups| :: groups[i].direction != groups[j].direction)
    && (forall g <- groups :: g.amountKobo == Sum(raw, g.direction))
    && (forall a <- raw :: exists g <- groups :: g.direction == a.direction)
  }

  lemma {:induction false} BalanceFromSums(kind: AccountType, raw: seq<Amount>)
    ensures BalanceOf(kind, raw)
            == if kind == ProcessorClearing then Sum(raw, Debit) - Sum(raw, Credit)
                else Sum(raw, Credit) - Sum(raw, Debit)
  {
    if |raw| > 0 {
      BalanceFromSums(kind, raw[..|raw| - 1]);
    }
  }

  lemma {:induction false} AbsentSumsToZero(raw: seq<Amount>, direction: Direction)
    requires forall a <- raw :: a.direction != direction
    ensures Sum(raw, direction) == 0
  {
    if |raw| > 0 {
      assert raw[|raw| - 1] in raw;
      AbsentSumsToZero(raw[..|raw| - 1], direction);
    }
  }

  lemma AppendAmount(kind: AccountType, amounts: seq<Amount>, a: Amount)
    ensures BalanceOf(kind, amounts + [a])
            == BalanceOf(kind, amounts) + if (a.direction == Debit) == (kind == ProcessorClearing)
                then a.amountKobo else -a.amountKobo
  {
    assert (amounts + [a])[..|amounts + [a]| - 1] == amounts;
  }

  lemma {:induction false} EachEntryIsSummed(entries: seq<EntrySpec>, account: Account)
    ensures BalanceOf(account.kind, AmountsOn(entries, account)) == Net(entries, account)
  {
    if |entries| > 0 {
      var shorter, e := entries[..|entries| - 1], entries[|entries| - 1];
      EachEntryIsSummed(shorter, account);
      if e.account == account {
        AppendAmount(account.kind, AmountsOn(shorter, account), Amount(e.direction, e.amountKobo));
        assert AmountsOn(entries, account) == AmountsOn(shorter, account) + [Amount(e.direction, e.amountKobo)];
      } else {
        assert AmountsOn(entries, account) == AmountsOn(shorter, account);
      }
    }
  }

  lemma SumOfGroups(groups: seq<Amount>, raw: seq<Amount>, direction: Direction)
    requires IsGrouping(groups, raw)
    ensures Sum(groups, direction) == Sum(raw, direction)
  {
    if exists g <- groups :: g.direction == direction {
      var i :| 0 <= i < |groups| && groups[i].direction == direction;
      OnlyOne(groups, i);
      assert groups[i] in groups;
    } else {
      AbsentSumsToZero(groups, direction);
      AbsentSumsToZero(raw, direction);
    }
  }

  lemma {:induction false} OnlyOne(groups: seq<Amount>, i: nat)
    requires i < |groups| && forall j | 0 <= j < |groups| && j != i :: groups[j].direction != groups[i].direction
    ensures Sum(groups, groups[i].direction) == groups[i].amountKobo
  {
    var shorter := groups[..|groups| - 1];
    if i < |shorter| {
      OnlyOne(shorter, i);
    } else {
      AbsentSumsToZero(shorter, groups[i].direction);
    }
  }

  /** getBalance over grouped sums is the balance over the raw rows, whatever groups come back and in what order. */
  lemma GetBalanceMatchesRows(entries: seq<EntrySpec>, account: Account, groups: seq<Amount>)
    requires IsGrouping(groups, AmountsOn(entries, account))
    ensures BalanceOf(account.kind, groups) == Net(entries, account)
  {
    var raw := AmountsOn(entries, account);
    EachEntryIsSummed(entries, account);
    BalanceFromSums(account.kind, raw);
    BalanceFromSums(account.kind, groups);
    SumOfGroups(groups, raw, Debit);
    SumOfGroups(groups, raw, Credit);
  }
}
