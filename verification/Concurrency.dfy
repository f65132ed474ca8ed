/** Why the queue's one-job-per-payout rule is needed: without it, two runs of one payout can both pay. */
module Concurrency {
  import opened Wrappers
  import opened Ledger
  import opened Tables
  import opened TablesInvariant
  import opened Protocol
  import opened SingleTransfer

  const WHOLE := Split(10000, 0, 0)
  const TIP := PaymentForPosting(500000, "venue", Some("dj"))
  const DJ := Account(EntertainerPayable, Some("dj"))
  const PAYEE := Payee("Dele Jay", BankAccount("0123456789", "058"))
  const GO := Choice(Send(PAYEE), InFlight, "RCP", None)
  const LINES := [EntrySpec(CLEARING, Debit, 500000), EntrySpec(DJ, Credit, 500000)]
  const PAID := Paid(500000, Some("NGN"))
  const ROW := Payout(DJ, 0, 500000, QUEUED, 0, None, None, None)
  const FIRST := ROW.(status := PROCESSING, attempts := 1, transferReference := Some(Reference(0, 1)))
  const SECOND := ROW.(status := PROCESSING, attempts := 2, transferReference := Some(Reference(0, 2)),
                       recipientCode := Some("RCP"))
  const SENT := Transfer(InFlight, 500000, PAYEE.account)
  const CODES := map["RCP" := PAYEE.account]

  function World(row: Payout, codes: map<string, BankAccount>, transfers: map<Reference, Transfer>, claims: seq<Claim>,
                 workers: map<nat, Worker>): State {
    State(Books([WHOLE], [Payment(TIP, Some(0), PaymentStatus.SUCCESS)], [row], [Posting(0, LINES)]),
          [PAID], codes, transfers, {}, claims, workers)
  }

  lemma RunFour(serial: bool, s: State, a: Action, b: Action, c: Action, d: Action)
    ensures Run(serial, s, [a, b, c, d])
            == Apply(serial, Apply(serial, Apply(serial, Apply(serial, s, a), b), c), d)
  {
    assert [a, b, c, d][..3] == [a, b, c] && [a, b, c][..2] == [a, b] && [a, b][..1] == [a] && [a][..0] == [];
    assert Run(serial, s, []) == s;
    assert Run(serial, s, [a]) == Apply(serial, s, a);
    assert Run(serial, s, [a, b]) == Apply(serial, Run(serial, s, [a]), b);
    assert Run(serial, s, [a, b, c]) == Apply(serial, Run(serial, s, [a, b]), c);
  }

  lemma WholeToEntertainer(terms: PaymentForPosting)
    requires terms.grossAmountKobo == 500000 && HasEntertainer(terms)
    ensures PaymentEntries(terms, WHOLE)
            == Ok([EntrySpec(CLEARING, Debit, 500000),
                   EntrySpec(Account(EntertainerPayable, terms.entertainerId), Credit, 500000)])
  {
    var gross := terms.grossAmountKobo;
    assert ValidSplit(WHOLE) && ValidGross(gross);
    assert ApplyBasisPoints(gross, 10000) == 500000 && ApplyBasisPoints(gross, 0) == 0;
    assert EntertainerShare(terms, WHOLE) == 500000 && VenueShare(terms, WHOLE) == 0
           && PlatformShare(terms, WHOLE) == 0;
    assert PaymentLines(terms, WHOLE)
        == [EntrySpec(CLEARING, Debit, 500000),
            EntrySpec(Account(EntertainerPayable, terms.entertainerId), Credit, 500000)];
    assert PaymentEntries(terms, WHOLE) == Ok(PaymentLines(terms, WHOLE));
  }

  lemma Lines()
    ensures PaymentEntries(TIP, WHOLE) == Ok(LINES)
  {
    assert |"dj"| == 2;
    WholeToEntertainer(TIP);
  }

  lemma OnePayout()
    ensures NewPayouts(Obligations(LINES), 0) == [ROW]
  {
    var first := EntrySpec(CLEARING, Debit, 500000);
    assert LINES == [first] + CreditLine(DJ, 500000);
    ObligationsOfLine([first], DJ, 500000);
    assert [first][..0] == [];
    assert Obligations([first]) == Obligations([first][..0]) == [];
  }

  const QUOTED := Payment(TIP, Some(0), CREATED)
  const STARTED := State(Books([WHOLE], [QUOTED], [], []), [PAID], map[], map[], {}, [],
                         map[0 := Worker(None, SettleRead(0))])

  function Opening(): seq<Action> {
    [NewRule(WHOLE), NewPayment(TIP, Some(0), true), ChargeMoves(0, PAID), StartSettle(0, 0)]
  }

  lemma Opens(serial: bool)
    ensures Run(serial, INITIAL, Opening()) == STARTED
  {
    RunFour(serial, INITIAL, NewRule(WHOLE), NewPayment(TIP, Some(0), true), ChargeMoves(0, PAID), StartSettle(0, 0));
  }

  lemma Settles(serial: bool)
    ensures Run(serial, STARTED, [Advance(0, GO), Advance(0, GO), Advance(0, GO), Advance(0, GO)])
            == World(ROW, map[], map[], [], map[])
  {
    RunFour(serial, STARTED, Advance(0, GO), Advance(0, GO), Advance(0, GO), Advance(0, GO));
    SettleReads(serial);
    SettleCommits(serial);
  }

  lemma SettleCommits(serial: bool)
    ensures Apply(serial, STARTED.(workers := map[0 := Worker(None, SettleCommit(0, LINES))]), Advance(0, GO))
            == World(ROW, map[], map[], [], map[])
  {
    OnePayout();
    var s := STARTED.(workers := map[0 := Worker(None, SettleCommit(0, LINES))]);
    assert s.workers[0].pc == SettleCommit(0, LINES);
    assert s.workers - {0} == map[];
  }

  lemma SettleReads(serial: bool)
    ensures Apply(serial, Apply(serial, Apply(serial, STARTED, Advance(0, GO)), Advance(0, GO)), Advance(0, GO))
            == STARTED.(workers := map[0 := Worker(None, SettleCommit(0, LINES))])
  {
    Lines();
    var s1 := Apply(serial, STARTED, Advance(0, GO));
    assert s1 == STARTED.(workers := map[0 := Worker(None, SettleVerify(0, QUOTED))]);
    var s2 := Apply(serial, s1, Advance(0, GO));
    assert s2 == STARTED.(workers := map[0 := Worker(None, SettleRule(0, QUOTED))]);
  }

  const W1 := Worker(Some(0), PayoutRecipient(0, 1, PAYEE))

  const READY := Worker(Some(0), PayoutClaim(0, ROW, PAYEE))

  lemma FirstReads(serial: bool)
    ensures Run(serial, World(ROW, map[], map[], [], map[]), [StartPayout(1, 0), Advance(1, GO), Advance(1, GO)])
            == World(ROW, map[], map[], [], map[1 := READY])
  {
    var s := World(ROW, map[], map[], [], map[]);
    var x, y := StartPayout(1, 0), Advance(1, GO);
    RunLast(serial, s, [], x);
    RunLast(serial, s, [x], y);
    RunLast(serial, s, [x, y], y);
    assert [] + [x] == [x] && [x] + [y] == [x, y] && [x, y] + [y] == [x, y, y];
    assert Run(serial, s, []) == s;
    assert Apply(serial, s, x) == World(ROW, map[], map[], [], map[1 := Worker(Some(0), PayoutRead(0))]);
  }

  lemma RunLast(serial: bool, s: State, actions: seq<Action>, a: Action)
    ensures Run(serial, s, actions + [a]) == Apply(serial, Run(serial, s, actions), a)
  {
    assert (actions + [a])[..|actions|] == actions;
  }

  lemma FirstClaims(serial: bool)
    ensures Run(serial, World(ROW, map[], map[], [], map[1 := READY]), [Advance(1, GO)])
            == World(FIRST, map[], map[], [Claim(1, 0, 1)], map[1 := W1])
  {
    var s := World(ROW, map[], map[], [], map[1 := READY]);
    RunLast(serial, s, [], Advance(1, GO));
    assert [] + [Advance(1, GO)] == [Advance(1, GO)];
    assert Run(serial, s, []) == s;
  }

  lemma SecondVerifies()
    ensures Run(false, World(FIRST, map[], map[], [Claim(1, 0, 1)], map[1 := W1]),
                [StartPayout(2, 0), Advance(2, GO), Advance(2, GO), Advance(2, GO)])
            == World(FIRST, map[], map[], [Claim(1, 0, 1)],
                     map[1 := W1, 2 := Worker(Some(0), PayoutClaim(0, FIRST, PAYEE))])
  {
    RunFour(false, World(FIRST, map[], map[], [Claim(1, 0, 1)], map[1 := W1]), StartPayout(2, 0), Advance(2, GO),
            Advance(2, GO), Advance(2, GO));
  }

  lemma SecondSends()
    ensures Run(false, World(FIRST, map[], map[], [Claim(1, 0, 1)],
                             map[1 := W1, 2 := Worker(Some(0), PayoutClaim(0, FIRST, PAYEE))]),
                [Advance(2, GO), Advance(2, GO), Advance(2, GO), Advance(2, GO)])
            == World(SECOND, CODES, map[Reference(0, 2) := SENT], [Claim(1, 0, 1), Claim(2, 0, 2)], map[1 := W1])
  {
    RunFour(false, World(FIRST, map[], map[], [Claim(1, 0, 1)],
                         map[1 := W1, 2 := Worker(Some(0), PayoutClaim(0, FIRST, PAYEE))]),
            Advance(2, GO), Advance(2, GO), Advance(2, GO), Advance(2, GO));
  }

  lemma FirstSends()
    ensures Run(false, World(SECOND, CODES, map[Reference(0, 2) := SENT], [Claim(1, 0, 1), Claim(2, 0, 2)],
                             map[1 := W1]),
                [Advance(1, GO), Advance(1, GO), Advance(1, GO), Crash(1)])
            == World(SECOND, CODES, map[Reference(0, 2) := SENT, Reference(0, 1) := SENT],
                     [Claim(1, 0, 1), Claim(2, 0, 2)],
                     map[])
  {
    RunFour(false, World(SECOND, CODES, map[Reference(0, 2) := SENT], [Claim(1, 0, 1), Claim(2, 0, 2)], map[1 := W1]),
            Advance(1, GO), Advance(1, GO), Advance(1, GO), Crash(1));
  }

  const BOTH := World(SECOND, CODES, map[Reference(0, 2) := SENT, Reference(0, 1) := SENT],
                      [Claim(1, 0, 1), Claim(2, 0, 2)], map[])

  function UpToReady(): seq<Action> {
    Opening() + [Advance(0, GO), Advance(0, GO), Advance(0, GO), Advance(0, GO)]
        + [StartPayout(1, 0), Advance(1, GO), Advance(1, GO)]
  }

  lemma ReachesReady(serial: bool)
    ensures Run(serial, INITIAL, UpToReady()) == World(ROW, map[], map[], [], map[1 := READY])
  {
    var a, b := Opening(), [Advance(0, GO), Advance(0, GO), Advance(0, GO), Advance(0, GO)];
    Opens(serial); Settles(serial); FirstReads(serial);
    RunConcat(serial, INITIAL, a, b);
    RunConcat(serial, INITIAL, a + b, [StartPayout(1, 0), Advance(1, GO), Advance(1, GO)]);
  }

  function TheRest(): seq<Action> {
    [Advance(1, GO)] + [StartPayout(2, 0), Advance(2, GO), Advance(2, GO), Advance(2, GO)]
    + [Advance(2, GO), Advance(2, GO), Advance(2, GO), Advance(2, GO)]
        + [Advance(1, GO), Advance(1, GO), Advance(1, GO), Crash(1)]
  }

  lemma ReachesBoth()
    ensures Run(false, World(ROW, map[], map[], [], map[1 := READY]), TheRest()) == BOTH
  {
    var s := World(ROW, map[], map[], [], map[1 := READY]);
    var c, d := [Advance(1, GO)], [StartPayout(2, 0), Advance(2, GO), Advance(2, GO), Advance(2, GO)];
    var e, f := [Advance(2, GO), Advance(2, GO), Advance(2, GO), Advance(2, GO)],
        [Advance(1, GO), Advance(1, GO), Advance(1, GO), Crash(1)];
    FirstClaims(false); SecondVerifies(); SecondSends(); FirstSends();
    RunConcat(false, s, c, d);
    RunConcat(false, s, c + d, e);
    RunConcat(false, s, c + d + e, f);
  }

  /** Two overlapping processPayout runs of one payout can leave two live transfers for one obligation: the second
      run finds the first one's reference not yet sent, claims the next attempt, and both are initiated. */
  lemma OverlappingRunsPayTwice()
    ensures exists actions: seq<Action> :: var s := Run(false, INITIAL, actions);
              LiveAt(s, Reference(0, 1)) && LiveAt(s, Reference(0, 2))
  {
    ReachesReady(false);
    ReachesBoth();
    RunConcat(false, INITIAL, UpToReady(), TheRest());
    var s := Run(false, INITIAL, UpToReady() + TheRest());
    assert LiveAt(s, Reference(0, 1)) && LiveAt(s, Reference(0, 2));
  }

  // ---------------------------------------------------------------- one run, paid at once

  const NOW := GO.(lands := Delivered)
  const THERE := Transfer(Delivered, 500000, PAYEE.account)
  const OUT := [EntrySpec(DJ, Debit, 500000), EntrySpec(CLEARING, Credit, 500000)]
  const SENDING := FIRST.(recipientCode := Some("RCP"))
  /** The transfer has arrived; all that is left of the run is to record it. */
  const ARRIVED := World(SENDING, CODES, map[Reference(0, 1) := THERE], [Claim(1, 0, 1)],
                         map[1 := Worker(Some(0), MarkCommit(0, Reference(0, 1), OUT))])
                   .(everDelivered := {Reference(0, 1)})

  function UpToArrival(): seq<Action> {
    UpToReady() + [Advance(1, GO)] + [Advance(1, GO), Advance(1, GO), Advance(1, NOW), Advance(1, GO)]
  }

  lemma Arrives(serial: bool)
    ensures Run(serial, World(FIRST, map[], map[], [Claim(1, 0, 1)], map[1 := W1]),
                [Advance(1, GO), Advance(1, GO), Advance(1, NOW), Advance(1, GO)]) == ARRIVED
  {
    var s := World(FIRST, map[], map[], [Claim(1, 0, 1)], map[1 := W1]);
    RunFour(serial, s, Advance(1, GO), Advance(1, GO), Advance(1, NOW), Advance(1, GO));
    ReadsToMark(serial);
  }

  lemma ReadsToMark(serial: bool)
    ensures Apply(serial, ARRIVED.(workers := map[1 := Worker(Some(0), MarkRead(0, Reference(0, 1)))]), Advance(1, GO))
            == ARRIVED
  {
    assert |"dj"| == 2;
    assert PayoutEntries(DJ, 500000) == Ok(OUT);
  }

  lemma ReachesArrival(serial: bool)
    ensures Run(serial, INITIAL, UpToArrival()) == ARRIVED
  {
    ReachesReady(serial);
    FirstClaims(serial);
    Arrives(serial);
    RunConcat(serial, INITIAL, UpToReady(), [Advance(1, GO)]);
    RunConcat(serial, INITIAL, UpToReady() + [Advance(1, GO)],
              [Advance(1, GO), Advance(1, GO), Advance(1, NOW), Advance(1, GO)]);
  }
}
