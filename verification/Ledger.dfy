/** LedgerService: the double-entry arithmetic. No state; every function returns the lines to write. */
module Ledger {
  import opened Wrappers

  const BASIS_POINTS_TOTAL := 10000
  const MAX_SAFE_INTEGER := 9007199254740991 // 2^53 - 1

  datatype AccountType = EntertainerPayable | VenuePayable | PlatformRevenue | ProcessorClearing

  datatype Direction = Debit | Credit

  /** Ledger accounts are unique per (type, owner). */
  datatype Account = Account(kind: AccountType, owner: Option<string>)

  datatype EntrySpec = EntrySpec(account: Account, direction: Direction, amountKobo: int)

  datatype PaymentForPosting = PaymentForPosting(grossAmountKobo: int, venueId: string, entertainerId: Option<string>)

  datatype Split = Split(entertainerBps: int, venueBps: int, platformBps: int)

  datatype PostingError = InvalidPosting | Unbalanced(totalDebits: int, totalCredits: int)

  const CLEARING := Account(ProcessorClearing, None)
  const REVENUE := Account(PlatformRevenue, None)

  predicate IsPayable(kind: AccountType) {
    kind == EntertainerPayable || kind == VenuePayable
  }

  // ---------------------------------------------------------------- shares

  predicate ValidSplit(split: Split) {
    && split.entertainerBps >= 0 && split.venueBps >= 0 && split.platformBps >= 0
    && split.entertainerBps + split.venueBps + split.platformBps == BASIS_POINTS_TOTAL
  }

  predicate ValidGross(gross: int) {
    0 < gross <= MAX_SAFE_INTEGER
  }

  /** An empty id is falsy in the source, exactly like a missing one. */
  predicate HasEntertainer(payment: PaymentForPosting) {
    payment.entertainerId.Some? && payment.entertainerId.value != ""
  }

  function ApplyBasisPoints(amountKobo: int, basisPoints: int): int {
    amountKobo * basisPoints / BASIS_POINTS_TOTAL
  }

  function EntertainerShare(payment: PaymentForPosting, split: Split): int {
    if HasEntertainer(payment) then ApplyBasisPoints(payment.grossAmountKobo, split.entertainerBps) else 0
  }

  function VenueShare(payment: PaymentForPosting, split: Split): int {
    ApplyBasisPoints(payment.grossAmountKobo,
                     if HasEntertainer(payment) then split.venueBps else split.venueBps + split.entertainerBps)
  }

  function PlatformShare(payment: PaymentForPosting, split: Split): int {
    payment.grossAmountKobo - EntertainerShare(payment, split) - VenueShare(payment, split)
  }

  // ---------------------------------------------------------------- postings

  /** A credit line, or nothing for a zero share. */
  function CreditLine(account: Account, amountKobo: int): seq<EntrySpec> {
    if amountKobo > 0 then [EntrySpec(account, Credit, amountKobo)] else []
  }

  function PaymentLines(payment: PaymentForPosting, split: Split): seq<EntrySpec> {
    [EntrySpec(CLEARING, Debit, payment.grossAmountKobo)]
    + CreditLine(Account(EntertainerPayable, payment.entertainerId), EntertainerShare(payment, split))
    + CreditLine(Account(VenuePayable, Some(payment.venueId)), VenueShare(payment, split))
    + CreditLine(REVENUE, PlatformShare(payment, split))
  }

  function PaymentEntries(payment: PaymentForPosting, split: Split): Result<seq<EntrySpec>, PostingError> {
    if !ValidSplit(split) || !ValidGross(payment.grossAmountKobo) then Err(InvalidPosting)
    else Ok(PaymentLines(payment, split))
  }

  function PayoutLines(account: Account, amountKobo: int): seq<EntrySpec> {
    [EntrySpec(account, Debit, amountKobo), EntrySpec(CLEARING, Credit, amountKobo)]
  }

  function Opposite(direction: Direction): Direction {
    if direction == Debit then Credit else Debit
  }

  function Reversed(entries: seq<EntrySpec>): seq<EntrySpec> {
    seq(|entries|, i requires 0 <= i < |entries| => entries[i].(direction := Opposite(entries[i].direction)))
  }

  function ReversalLines(account: Account, amountKobo: int): seq<EntrySpec> {
    Reversed(PayoutLines(account, amountKobo))
  }

  predicate CanPayOut(account: Account, amountKobo: int) {
    IsPayable(account.kind) && account.owner.Some? && account.owner.value != "" && 0 < amountKobo <= MAX_SAFE_INTEGER
  }

  function PayoutEntries(account: Account, amountKobo: int): Result<seq<EntrySpec>, PostingError> {
    if CanPayOut(account, amountKobo) then Ok(PayoutLines(account, amountKobo)) else Err(InvalidPosting)
  }

  function PayoutReversalEntries(account: Account, amountKobo: int): Result<seq<EntrySpec>, PostingError> {
    if CanPayOut(account, amountKobo) then Ok(ReversalLines(account, amountKobo)) else Err(InvalidPosting)
  }

  // ---------------------------------------------------------------- sums

  function Total(entries: seq<EntrySpec>, direction: Direction): int {
    if |entries| == 0 then 0
    else
      var e := entries[|entries| - 1];
      Total(entries[..|entries| - 1], direction) + if e.direction == direction then e.amountKobo else 0
  }

  predicate AllPositive(entries: seq<EntrySpec>) {
    forall e <- entries :: 0 < e.amountKobo <= MAX_SAFE_INTEGER
  }

  predicate Balanced(entries: seq<EntrySpec>) {
    |entries| > 0 && AllPositive(entries) && Total(entries, Debit) == Total(entries, Credit)
  }

  /** What one line adds to its account, in the account's normal sense. */
  function Signed(e: EntrySpec): int {
    if (e.direction == Debit) == (e.account.kind == ProcessorClearing) then e.amountKobo else -e.amountKobo
  }

  /** Balance of one account over raw entries. */
  function Net(entries: seq<EntrySpec>, account: Account): int {
    if |entries| == 0 then 0
    else
      var e := entries[|entries| - 1];
      Net(entries[..|entries| - 1], account) + if e.account == account then Signed(e) else 0
  }

  /** Balance of all accounts of one type, whoever owns them. */
  function NetOfKind(entries: seq<EntrySpec>, kind: AccountType): int {
    if |entries| == 0 then 0
    else
      var e := entries[|entries| - 1];
      NetOfKind(entries[..|entries| - 1], kind) + if e.account.kind == kind then Signed(e) else 0
  }

  // ---------------------------------------------------------------- the imperative forms

  method AssertBalanced(entries: seq<EntrySpec>) returns (failure: Option<PostingError>)
    ensures failure.None? <==> Balanced(entries)
    ensures failure.None? <==> entries != [] && Total(entries, Debit) == Total(entries, Credit)
                               && forall e <- entries :: 0 < e.amountKobo <= 0x1F_FFFF_FFFF_FFFF
    ensures failure == Some(InvalidPosting)
            <==> exists e <- entries :: e.amountKobo <= 0 || e.amountKobo > 0x1F_FFFF_FFFF_FFFF
    ensures entries == [] ==> failure == Some(Unbalanced(0, 0))
    ensures failure.Some? && failure.value.Unbalanced? ==>
              failure.value == Unbalanced(Total(entries, Debit), Total(entries, Credit))
  {
    var totalDebits, totalCredits := 0, 0;
    for i := 0 to |entries|
      invariant AllPositive(entries[..i])
      invariant totalDebits == Total(entries[..i], Debit)
      invariant totalCredits == Total(entries[..i], Credit)
    {
      var entry := entries[i];
      if !(0 < entry.amountKobo <= MAX_SAFE_INTEGER) {
        return Some(InvalidPosting);
      }
      assert entries[..i + 1][..i] == entries[..i];
      if entry.direction == Debit {
        totalDebits := totalDebits + entry.amountKobo;
      } else {
        totalCredits := totalCredits + entry.amountKobo;
      }
    }
    assert entries[..|entries|] == entries;
    if |entries| == 0 || totalDebits != totalCredits {
      return Some(Unbalanced(totalDebits, totalCredits));
    }
    return None;
  }

  method ComputePaymentEntries(payment: PaymentForPosting, split: Split)
    returns (r: Result<seq<EntrySpec>, PostingError>)
    ensures r == PaymentEntries(payment, split)
    ensures r.Ok? ==> Balanced(r.value)
  {
    if !ValidSplit(split) || !ValidGross(payment.grossAmountKobo) {
      return Err(InvalidPosting);
    }
    var gross := payment.grossAmountKobo;
    var hasEntertainer := HasEntertainer(payment);
    var entertainerShare := if hasEntertainer then ApplyBasisPoints(gross, split.entertainerBps) else 0;
    var venueBps := if hasEntertainer then split.venueBps else split.venueBps + split.entertainerBps;
    var venueShare := ApplyBasisPoints(gross, venueBps);
    var platformShare := gross - entertainerShare - venueShare;

    var entries := [EntrySpec(CLEARING, Debit, gross)];
    if entertainerShare > 0 {
      entries := entries + [EntrySpec(Account(EntertainerPayable, payment.entertainerId), Credit, entertainerShare)];
    }
    if venueShare > 0 {
      entries := entries + [EntrySpec(Account(VenuePayable, Some(payment.venueId)), Credit, venueShare)];
    }
    if platformShare > 0 {
      entries := entries + [EntrySpec(REVENUE, Credit, platformShare)];
    }
    assert entries == PaymentLines(payment, split);

    PaymentPostingBalances(payment, split);
    var failure := AssertBalanced(entries);
    assert failure.None?; // the balance check is a second line of defence: it never fires here
    return Ok(entries);
  }

  // ---------------------------------------------------------------- facts about shares

  lemma FloorBounds(gross: int, bps: int)
    requires 0 <= gross && 0 <= bps <= BASIS_POINTS_TOTAL
    ensures 0 <= ApplyBasisPoints(gross, bps) <= gross
    ensures ApplyBasisPoints(gross, bps) * BASIS_POINTS_TOTAL <= gross * bps
    ensures gross * bps < (ApplyBasisPoints(gross, bps) + 1) * BASIS_POINTS_TOTAL
  {
    assert 0 <= gross * bps <= gross * BASIS_POINTS_TOTAL;
  }

  /** Flooring two or three parts of a whole loses less than one unit each. */
  lemma FloorsOfParts(a: int, b: int, c: int, whole: int)
    requires a >= 0 && b >= 0 && c >= 0 && a + b + c == whole * BASIS_POINTS_TOTAL
    ensures 0 <= whole - a / BASIS_POINTS_TOTAL - b / BASIS_POINTS_TOTAL - c / BASIS_POINTS_TOTAL <= 2
    ensures 0 <= whole - (a + b) / BASIS_POINTS_TOTAL - c / BASIS_POINTS_TOTAL <= 1
    ensures 0 <= a / BASIS_POINTS_TOTAL <= whole && 0 <= b / BASIS_POINTS_TOTAL && 0 <= c / BASIS_POINTS_TOTAL
    ensures (a + b) / BASIS_POINTS_TOTAL <= whole && b / BASIS_POINTS_TOTAL <= whole
  {
  }

  lemma PartsOfGross(gross: int, split: Split)
    requires gross >= 0 && ValidSplit(split)
    ensures gross * split.entertainerBps >= 0 && gross * split.venueBps >= 0 && gross * split.platformBps >= 0
    ensures gross * split.entertainerBps + gross * split.venueBps + gross * split.platformBps
            == gross * BASIS_POINTS_TOTAL
    ensures gross * (split.venueBps + split.entertainerBps) == gross * split.entertainerBps + gross * split.venueBps
  {
    assert gross * (split.entertainerBps + split.venueBps + split.platformBps) == gross * BASIS_POINTS_TOTAL;
  }

  /** The shares are non-negative, sum to gross, and the platform keeps its own floor plus 0 to 2 kobo. */
  lemma SplitExactness(payment: PaymentForPosting, split: Split)
    requires ValidSplit(split) && ValidGross(payment.grossAmountKobo)
    ensures 0 <= EntertainerShare(payment, split) <= payment.grossAmountKobo
    ensures 0 <= VenueShare(payment, split) <= payment.grossAmountKobo
    ensures EntertainerShare(payment, split) + VenueShare(payment, split) + PlatformShare(payment, split)
            == payment.grossAmountKobo
    ensures var kept := PlatformShare(payment, split) - ApplyBasisPoints(payment.grossAmountKobo, split.platformBps);
            0 <= kept <= if HasEntertainer(payment) then 2 else 1
    ensures 0 <= PlatformShare(payment, split) <= payment.grossAmountKobo
  {
    var g := payment.grossAmountKobo;
    PartsOfGross(g, split);
    FloorsOfParts(g * split.entertainerBps, g * split.venueBps, g * split.platformBps, g);
  }

  /** Routing the entertainer's share to the venue costs the platform at most one kobo, and never gains it one. */
  lemma DroppingTheEntertainer(payment: PaymentForPosting, split: Split)
    requires ValidSplit(split) && ValidGross(payment.grossAmountKobo) && HasEntertainer(payment)
    ensures var without := payment.(entertainerId := None);
            0 <= PlatformShare(payment, split) - PlatformShare(without, split) <= 1
  {
    var g := payment.grossAmountKobo;
    PartsOfGross(g, split);
    FloorsOfParts(g * split.entertainerBps, g * split.venueBps, g * split.platformBps, g);
  }

  // ---------------------------------------------------------------- facts about sums

  lemma {:induction false} TotalConcat(a: seq<EntrySpec>, b: seq<EntrySpec>, direction: Direction)
    ensures Total(a + b, direction) == Total(a, direction) + Total(b, direction)
  {
    if |b| == 0 {
      assert a + b == a;
    } else {
      assert (a + b)[..|a + b| - 1] == a + b[..|b| - 1];
      TotalConcat(a, b[..|b| - 1], direction);
    }
  }

  lemma {:induction false} NetConcat(a: seq<EntrySpec>, b: seq<EntrySpec>, account: Account)
    ensures Net(a + b, account) == Net(a, account) + Net(b, account)
  {
    if |b| == 0 {
      assert a + b == a;
    } else {
      assert (a + b)[..|a + b| - 1] == a + b[..|b| - 1];
      NetConcat(a, b[..|b| - 1], account);
    }
  }

  lemma {:induction false} NetOfKindConcat(a: seq<EntrySpec>, b: seq<EntrySpec>, kind: AccountType)
    ensures NetOfKind(a + b, kind) == NetOfKind(a, kind) + NetOfKind(b, kind)
  {
    if |b| == 0 {
      assert a + b == a;
    } else {
      assert (a + b)[..|a + b| - 1] == a + b[..|b| - 1];
      NetOfKindConcat(a, b[..|b| - 1], kind);
    }
  }

  /** A credit line, or its absence, moves exactly the stated amount onto exactly the stated account. */
  lemma CreditLineSums(account: Account, amountKobo: int, other: Account)
    requires 0 <= amountKobo && account.kind != ProcessorClearing
    ensures Total(CreditLine(account, amountKobo), Debit) == 0
    ensures Total(CreditLine(account, amountKobo), Credit) == amountKobo
    ensures Net(CreditLine(account, amountKobo), other) == if other == account then amountKobo else 0
  {
    if amountKobo > 0 {
      var line := CreditLine(account, amountKobo);
      assert line[..0] == [];
      assert Total(line[..0], Debit) == Total(line[..0], Credit) == Net(line[..0], other) == 0;
    }
  }

  /** The effect of a settlement posting: every account moves by its share, and debits equal credits. */
  lemma PaymentPostingBalances(payment: PaymentForPosting, split: Split)
    requires ValidSplit(split) && ValidGross(payment.grossAmountKobo)
    ensures Balanced(PaymentLines(payment, split))
    ensures Net(PaymentLines(payment, split), CLEARING) == payment.grossAmountKobo
    ensures Net(PaymentLines(payment, split), REVENUE) == PlatformShare(payment, split)
    ensures Net(PaymentLines(payment, split), Account(EntertainerPayable, payment.entertainerId))
            == EntertainerShare(payment, split)
    ensures Net(PaymentLines(payment, split), Account(VenuePayable, Some(payment.venueId)))
            == VenueShare(payment, split)
  {
    SplitExactness(payment, split);
    var first := [EntrySpec(CLEARING, Debit, payment.grossAmountKobo)];
    var entertainer := Account(EntertainerPayable, payment.entertainerId);
    var venue := Account(VenuePayable, Some(payment.venueId));
    var e := CreditLine(entertainer, EntertainerShare(payment, split));
    var v := CreditLine(venue, VenueShare(payment, split));
    var p := CreditLine(REVENUE, PlatformShare(payment, split));
    assert first[..0] == [];
    assert Total(first, Debit) == payment.grossAmountKobo && Total(first, Credit) == 0 by {
      assert Total(first[..0], Debit) == Total(first[..0], Credit) == 0;
    }
    assert Net(first, CLEARING) == payment.grossAmountKobo && Net(first, REVENUE) == 0 by {
      assert Net(first[..0], CLEARING) == Net(first[..0], REVENUE) == 0;
    }
    forall d: Direction
      ensures Total(first + e + v + p, d) == Total(first, d) + Total(e, d) + Total(v, d) + Total(p, d)
    {
      TotalConcat(first + e + v, p, d);
      TotalConcat(first + e, v, d);
      TotalConcat(first, e, d);
    }
    forall a: Account
      ensures Net(first + e + v + p, a) == Net(first, a) + Net(e, a) + Net(v, a) + Net(p, a)
    {
      NetConcat(first + e + v, p, a);
      NetConcat(first + e, v, a);
      NetConcat(first, e, a);
    }
    CreditLineSums(entertainer, EntertainerShare(payment, split), CLEARING);
    CreditLineSums(venue, VenueShare(payment, split), CLEARING);
    CreditLineSums(REVENUE, PlatformShare(payment, split), CLEARING);
    CreditLineSums(entertainer, EntertainerShare(payment, split), REVENUE);
    CreditLineSums(venue, VenueShare(payment, split), REVENUE);
    CreditLineSums(REVENUE, PlatformShare(payment, split), REVENUE);
    forall payable: Account | IsPayable(payable.kind)
      ensures Net(first, payable) == 0
      ensures Net(e, payable) == if payable == entertainer then EntertainerShare(payment, split) else 0
      ensures Net(v, payable) == if payable == venue then VenueShare(payment, split) else 0
      ensures Net(p, payable) == 0
    {
      CreditLineSums(entertainer, EntertainerShare(payment, split), payable);
      CreditLineSums(venue, VenueShare(payment, split), payable);
      CreditLineSums(REVENUE, PlatformShare(payment, split), payable);
      assert Net(first[..0], payable) == 0;
    }
    assert Balanced(first + e + v + p);
  }

  /** A payout moves its amount off the payable account and out of clearing; a reversal undoes exactly that. */
  lemma PayoutPostingEffect(account: Account, amountKobo: int, other: Account)
    requires CanPayOut(account, amountKobo)
    ensures Balanced(PayoutLines(account, amountKobo)) && Balanced(ReversalLines(account, amountKobo))
    ensures Net(PayoutLines(account, amountKobo), other)
            == if other == account || other == CLEARING then -amountKobo else 0
    ensures Net(ReversalLines(account, amountKobo), other) == -Net(PayoutLines(account, amountKobo), other)
  {
    var es := PayoutLines(account, amountKobo);
    var rs := ReversalLines(account, amountKobo);
    assert es[..1] == [es[0]] && es[..1][..0] == [] && rs[..1] == [rs[0]] && rs[..1][..0] == [];
    assert Total(es, Debit) == Total(es[..1], Debit) == Total(es[..1][..0], Debit) + amountKobo;
    assert Total(es, Credit) == Total(es[..1], Credit) + amountKobo == Total(es[..1][..0], Credit) + amountKobo;
    assert Total(rs, Credit) == Total(rs[..1], Credit) == Total(rs[..1][..0], Credit) + amountKobo;
    assert Total(rs, Debit) == Total(rs[..1], Debit) + amountKobo == Total(rs[..1][..0], Debit) + amountKobo;
    assert Net(es[..1][..0], other) == Net(rs[..1][..0], other) == 0;
  }
}
