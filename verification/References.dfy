/** The transfer reference string po_<id without dashes>_<attempt> stands for exactly one (payout id, attempt). */
module References {

  /** A UUID: 36 characters with dashes exactly in the four usual places (section 4 of RFC 9562). */
  predicate IsUuid(id: string) {
    |id| == 36 && forall i | 0 <= i < 36 :: id[i] == '-' <==> i in {8, 13, 18, 23}
  }

  /** id.replace(/-/g, '') */
  function RemoveDashes(id: string): string {
    if id == "" then "" else (if id[0] == '-' then "" else [id[0]]) + RemoveDashes(id[1..])
  }

  function Digit(d: nat): char
    requires d < 10
  {
    ('0' as int + d) as char
  }

  function Decimal(n: nat): string {
    if n < 10 then [Digit(n)] else Decimal(n / 10) + [Digit(n % 10)]
  }

  function TransferReference(id: string, attempt: nat): string {
    "po_" + RemoveDashes(id) + "_" + Decimal(attempt)
  }

  lemma {:induction false} RemoveDashesConcat(a: string, b: string)
    ensures RemoveDashes(a + b) == RemoveDashes(a) + RemoveDashes(b)
  {
    if a == "" {
      assert a + b == b;
    } else {
      assert (a + b)[1..] == a[1..] + b;
      RemoveDashesConcat(a[1..], b);
    }
  }

  lemma {:induction false} NothingToRemove(a: string)
    requires forall i | 0 <= i < |a| :: a[i] != '-'
    ensures RemoveDashes(a) == a
  {
    if a != "" {
      NothingToRemove(a[1..]);
    }
  }

  /** A part without dashes is kept whole; the dash after it disappears. */
  lemma {:induction false} DropDash(part: string, rest: string)
    requires forall i | 0 <= i < |part| :: part[i] != '-'
    ensures RemoveDashes(part + (['-'] + rest)) == part + RemoveDashes(rest)
  {
    RemoveDashesConcat(part, ['-'] + rest);
    NothingToRemove(part);
    assert (['-'] + rest)[1..] == rest;
  }

  lemma {:induction false} UuidParts(id: string)
    requires IsUuid(id)
    ensures RemoveDashes(id) == id[0..8] + id[9..13] + id[14..18] + id[19..23] + id[24..36]
  {
    DropDash(id[0..8], id[9..]);
    DropDash(id[9..13], id[14..]);
    DropDash(id[14..18], id[19..]);
    DropDash(id[19..23], id[24..]);
    NothingToRemove(id[24..36]);
    assert id == id[0..8] + (['-'] + id[9..]);
    assert id[9..] == id[9..13] + (['-'] + id[14..]);
    assert id[14..] == id[14..18] + (['-'] + id[19..]);
    assert id[19..] == id[19..23] + (['-'] + id[24..]);
    assert id[24..] == id[24..36];
    var tail3 := id[14..18] + (id[19..23] + id[24..36]);
    assert RemoveDashes(id) == id[0..8] + (id[9..13] + tail3);
  }

  lemma {:induction false} UuidsStayDistinct(x: string, y: string)
    requires IsUuid(x) && IsUuid(y) && RemoveDashes(x) == RemoveDashes(y)
    ensures x == y
  {
    UuidParts(x);
    UuidParts(y);
    var s := RemoveDashes(x);
    assert x[0..8] == s[0..8] == y[0..8];
    assert x[9..13] == s[8..12] == y[9..13];
    assert x[14..18] == s[12..16] == y[14..18];
    assert x[19..23] == s[16..20] == y[19..23];
    assert x[24..36] == s[20..32] == y[24..36];
    forall i | 0 <= i < 36 ensures x[i] == y[i] {
      if i < 8 { assert x[0..8][i] == y[0..8][i]; }
      else if 8 < i < 13 { assert x[9..13][i - 9] == y[9..13][i - 9]; }
      else if 13 < i < 18 { assert x[14..18][i - 14] == y[14..18][i - 14]; }
      else if 18 < i < 23 { assert x[19..23][i - 19] == y[19..23][i - 19]; }
      else if 23 < i { assert x[24..36][i - 24] == y[24..36][i - 24]; }
    }
  }

  lemma {:induction false} DecimalIsInjective(a: nat, b: nat)
    requires Decimal(a) == Decimal(b)
    ensures a == b
  {
    var s := Decimal(a);
    assert |s| >= 1 && s[|s| - 1] == Digit(a % 10) && s[|s| - 1] == Digit(b % 10);
    if a >= 10 && b >= 10 {
      assert Decimal(a / 10) == s[..|s| - 1] == Decimal(b / 10);
      DecimalIsInjective(a / 10, b / 10);
    } else {
      DecimalLength(a);
      DecimalLength(b);
    }
  }

  lemma {:induction false} DecimalLength(n: nat)
    ensures |Decimal(n)| == 1 <==> n < 10
  {
    if n >= 10 {
      assert |Decimal(n / 10)| >= 1;
    }
  }

  /** Two references are equal only for the same payout and the same attempt. */
  lemma ReferencesAreInjective(x: string, i: nat, y: string, j: nat)
    requires IsUuid(x) && IsUuid(y)
    ensures TransferReference(x, i) == TransferReference(y, j) <==> x == y && i == j
  {
    if TransferReference(x, i) == TransferReference(y, j) {
      UuidParts(x);
      UuidParts(y);
      var r := TransferReference(x, i);
      assert RemoveDashes(x) == r[3..35] == RemoveDashes(y);
      assert Decimal(i) == r[36..] == Decimal(j);
      UuidsStayDistinct(x, y);
      DecimalIsInjective(i, j);
    }
  }
}
