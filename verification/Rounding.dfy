/** Rounding over many payments, and why the floating-point division is exact. */
module Rounding {
  import opened Ledger

  // ---------------------------------------------------------------- many payments under one rule

  function Gross(payments: seq<PaymentForPosting>): int {
    if payments == [] then 0 else payments[0].grossAmountKobo + Gross(payments[1..])
  }

  /** How many of the payments have an entertainer. */
  function Performed(payments: seq<PaymentForPosting>): nat {
    if payments == [] then 0 else (if HasEntertainer(payments[0]) then 1 else 0) + Performed(payments[1..])
  }

  /** The exact shares, in ten-thousandths of a kobo. A payment without an entertainer owes its share to the venue. */
  function ExactEntertainer(payments: seq<PaymentForPosting>, split: Split): int {
    if payments == [] then 0
    else
      (if HasEntertainer(payments[0]) then payments[0].grossAmountKobo * split.entertainerBps else 0)
      + ExactEntertainer(payments[1..], split)
  }

  function ExactVenue(payments: seq<PaymentForPosting>, split: Split): int {
    if payments == [] then 0
    else
      payments[0].grossAmountKobo * split.venueBps
      + (if HasEntertainer(payments[0]) then 0 else payments[0].grossAmountKobo * split.entertainerBps)
      + ExactVenue(payments[1..], split)
  }

  function EntertainerTotal(payments: seq<PaymentForPosting>, split: Split): int {
    if payments == [] then 0 else EntertainerShare(payments[0], split) + EntertainerTotal(payments[1..], split)
  }

  function VenueTotal(payments: seq<PaymentForPosting>, split: Split): int {
    if payments == [] then 0 else VenueShare(payments[0], split) + VenueTotal(payments[1..], split)
  }

  function PlatformTotal(payments: seq<PaymentForPosting>, split: Split): int {
    if payments == [] then 0 else PlatformShare(payments[0], split) + PlatformTotal(payments[1..], split)
  }

  function PlatformFloors(payments: seq<PaymentForPosting>, split: Split): int {
    if payments == [] then 0
    else ApplyBasisPoints(payments[0].grossAmountKobo, split.platformBps) + PlatformFloors(payments[1..], split)
  }

  /** A floored share is less than one kobo short. */
  lemma FloorLoss(gross: int, bps: int)
    requires 0 <= gross && 0 <= bps <= BASIS_POINTS_TOTAL
    ensures 0 <= gross * bps - ApplyBasisPoints(gross, bps) * BASIS_POINTS_TOTAL <= BASIS_POINTS_TOTAL - 1
  {
    FloorBounds(gross, bps);
  }

  lemma OneVenueLoss(payment: PaymentForPosting, split: Split)
    requires ValidSplit(split) && ValidGross(payment.grossAmountKobo)
    ensures var g := payment.grossAmountKobo;
            var exact := g * split.venueBps + if HasEntertainer(payment) then 0 else g * split.entertainerBps;
            0 <= exact - VenueShare(payment, split) * BASIS_POINTS_TOTAL <= BASIS_POINTS_TOTAL - 1
  {
    var g := payment.grossAmountKobo;
    PartsOfGross(g, split);
    if HasEntertainer(payment) {
      FloorLoss(g, split.venueBps);
    } else {
      FloorLoss(g, split.venueBps + split.entertainerBps);
    }
  }

  /** Over any n payments under one rule, with or without an entertainer: nothing is lost or made; entertainer and
      venue are each less than one kobo per payment below their exact share; and the platform is above its own floors
      by at most one kobo per payment and another per payment with an entertainer. */
  lemma {:induction false} CumulativeRounding(payments: seq<PaymentForPosting>, split: Split)
    requires ValidSplit(split)
    requires forall payment <- payments :: ValidGross(payment.grossAmountKobo)
    ensures EntertainerTotal(payments, split) + VenueTotal(payments, split) + PlatformTotal(payments, split)
            == Gross(payments)
    ensures 0 <= ExactEntertainer(payments, split) - EntertainerTotal(payments, split) * BASIS_POINTS_TOTAL
              <= (BASIS_POINTS_TOTAL - 1) * Performed(payments)
    ensures 0 <= ExactVenue(payments, split) - VenueTotal(payments, split) * BASIS_POINTS_TOTAL
              <= (BASIS_POINTS_TOTAL - 1) * |payments|
    ensures 0 <= PlatformTotal(payments, split) - PlatformFloors(payments, split) <= |payments| + Performed(payments)
    ensures Performed(payments) <= |payments|
  {
    if payments != [] {
      CumulativeRounding(payments[1..], split);
      SplitExactness(payments[0], split);
      FloorLoss(payments[0].grossAmountKobo, split.entertainerBps);
      OneVenueLoss(payments[0], split);
    }
  }

  // ---------------------------------------------------------------- floating point

  function Pow2(e: nat): int {
    if e == 0 then 1 else 2 * Pow2(e - 1)
  }

  /** A binary64 value: a 53-bit significand scaled by a power of two (section 3.4 of IEEE 754-2019;
      only the exponents between -1074 and 971 exist). */
  ghost predicate Representable(x: real) {
    exists m: int, e: nat :: IsScaled(x, m, e)
  }

  ghost predicate IsScaled(x: real, m: int, e: nat) {
    && -Pow2(53) < m < Pow2(53)
    && (|| (e <= 971 && x == (m * Pow2(e)) as real)
        || (e <= 1074 && x * Pow2(e) as real == m as real))
  }

  /** r is a nearest representable value to x: correct rounding in either tie-breaking direction
      (section 4.3.1 of IEEE 754-2019). */
  ghost predicate RoundsTo(x: real, r: real) {
    Representable(r) && forall y: real :: Representable(y) ==> Distance(x, r) <= Distance(x, y)
  }

  function Distance(x: real, y: real): real {
    if x < y then y - x else x - y
  }

  lemma PowersOfTwo()
    ensures Pow2(13) == 8192 && Pow2(40) == 1099511627776 && Pow2(53) == 9007199254740992
  {
    assert Pow2(10) == 1024;
    assert Pow2(20) == 1048576 by { assert Pow2(15) == 32768; }
    assert Pow2(30) == 1073741824 by { assert Pow2(25) == 33554432; }
    assert Pow2(40) == 1099511627776 by { assert Pow2(35) == 34359738368; }
    assert Pow2(50) == 1125899906842624 by { assert Pow2(45) == 35184372088832; }
  }

  lemma IntegersAreRepresentable(n: int)
    requires -Pow2(53) < n < Pow2(53)
    ensures Representable(n as real)
  {
    assert Pow2(0) == 1;
    assert IsScaled(n as real, n, 0);
  }

  /** Multiples of 2^-13 below 2^40 are representable; they separate q + 9999/10000 from q + 1. */
  lemma FractionsAreRepresentable(m: int)
    requires -Pow2(53) < m < Pow2(53)
    ensures Representable(m as real / 8192.0)
  {
    PowersOfTwo();
    assert (m as real / 8192.0) * Pow2(13) as real == m as real;
    assert IsScaled(m as real / 8192.0, m, 13);
  }

  /** Rounding the quotient never crosses an integer, so its floor is the exact integer quotient. */
  lemma QuotientFloor(product: int, quotient: real)
    requires 0 <= product < Pow2(53)
    requires RoundsTo(product as real / 10000.0, quotient)
    ensures quotient.Floor == product / 10000
  {
    PowersOfTwo();
    var q, rest := product / 10000, product % 10000;
    var x := product as real / 10000.0;
    assert x == q as real + rest as real / 10000.0;
    IntegersAreRepresentable(q);
    assert Distance(x, quotient) <= Distance(x, q as real);
    assert q as real <= quotient;
    var m := (q + 1) * 8192 - 1;
    FractionsAreRepresentable(m);
    var y := m as real / 8192.0;
    assert y == (q + 1) as real - 1.0 / 8192.0;
    assert Distance(x, quotient) <= Distance(x, y);
    assert x <= (q + 1) as real - 1.0 / 10000.0;
    assert quotient < (q + 1) as real;
  }

  /** An exact product is its own rounding. */
  lemma ExactProduct(n: int, product: real)
    requires -Pow2(53) < n < Pow2(53)
    requires RoundsTo(n as real, product)
    ensures product == n as real
  {
    IntegersAreRepresentable(n);
    assert Distance(n as real, product) <= Distance(n as real, n as real);
  }

  lemma ProductBounds(a: int, b: int, most: int, often: int)
    requires 0 <= a <= most && 0 <= b <= often
    ensures 0 <= a * b <= most * often
  {
    assert a * b <= most * b;
    assert most * b <= most * often;
  }

  /** Math.floor((amount * bps) / 10000) in binary64 is integer division, for every product below 2^53.
      Amounts are at most 10^9 kobo at initialization, so the bound always holds there. */
  lemma FloatingPointRefinesDivision(amountKobo: int, bps: int, product: real, quotient: real)
    requires 0 <= amountKobo && 0 <= bps && amountKobo * bps < Pow2(53)
    requires RoundsTo((amountKobo * bps) as real, product)
    requires RoundsTo(product / 10000.0, quotient)
    ensures quotient.Floor == ApplyBasisPoints(amountKobo, bps)
  {
    ProductBounds(amountKobo, bps, amountKobo, bps);
    var n := amountKobo * bps;
    ExactProduct(n, product);
    QuotientFloor(n, quotient);
  }

  /** Every amount the initialization DTO admits stays inside that bound. */
  lemma DtoAmountsStayExact(amountKobo: int, bps: int)
    requires 10000 <= amountKobo <= 1000000000 && 0 <= bps <= BASIS_POINTS_TOTAL
    ensures 0 <= amountKobo * bps < Pow2(53)
  {
    PowersOfTwo();
    ProductBounds(amountKobo, bps, 1000000000, BASIS_POINTS_TOTAL);
  }
}
