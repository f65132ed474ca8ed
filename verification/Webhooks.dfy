/** Webhook ingest, webhook processing and status polls for one payment reference, each run to its end. */
module Webhooks {
  import opened Wrappers
  import opened Ledger
  import opened Tables
  import opened Protocol

  datatype SettleError = IntegrityMismatch | NoDivision | ProviderDown

  /** What settle leaves in the tables, and what it throws. */
  datatype Settlement = Settlement(books: Books, error: Option<SettleError>)

  /** settle from start to end with nobody in between. */
  function SettleNow(b: Books, charge: Charge, t: nat, providerDown: bool): Settlement {
    if t >= |b.payments| || !IsSettleable(b.payments[t].status) then Settlement(b, None)
    else if providerDown then Settlement(b, Some(ProviderDown))
    else
      match charge
      case ChargeFailed => Settlement(MovePayment(b, t, {CREATED, PENDING}, PaymentStatus.FAILED), None)
      case Unpaid => Settlement(MovePayment(b, t, {CREATED}, PENDING), None)
      case Paid(_, _) =>
        if !ChargeMatches(charge, b.payments[t]) then Settlement(b, Some(IntegrityMismatch))
        else
          match SplitLines(b, b.payments[t])
          case Ok(entries) => Settlement(SettlePayment(b, t, entries), None)
          case Err(_) => Settlement(b, Some(NoDivision))
  }

  datatype ProcessingStatus = Pending | Processing | Completed | Failed

  /** What a stored event asks for. */
  datatype EventBody =
    | ChargeSuccess(t: nat)
    | TransferNews(ref: Reference, event: TransferEvent)
    | Unhandled
    | NoReference

  datatype WebhookEvent = WebhookEvent(externalEventId: string, body: EventBody, status: ProcessingStatus)

  /** The stored event with this external id. */
  function FindEvent(events: seq<WebhookEvent>, id: string): (found: Option<nat>)
    ensures found.Some? ==> found.value < |events| && events[found.value].externalEventId == id
    ensures found.None? <==> forall e <- events :: e.externalEventId != id
  {
    if |events| == 0 then None
    else if events[|events| - 1].externalEventId == id then Some(|events| - 1)
    else FindEvent(events[..|events| - 1], id)
  }

  // ---------------------------------------------------------------- one reference

  /** jobs are the queued event positions; retained are those whose job used up its attempts and is kept, for a week,
      under the same job id. */
  datatype Desk = Desk(books: Books, events: seq<WebhookEvent>, jobs: set<nat>, retained: set<nat>)

  datatype Handled = Handled(desk: Desk, threw: bool)

  /** The handler on a stored charge.success: an integrity failure parks the event, any other error is rethrown. */
  function HandleNow(d: Desk, charge: Charge, e: nat, providerDown: bool): Handled {
    if e >= |d.events| || d.events[e].status == Completed || !d.events[e].body.ChargeSuccess? then Handled(d, false)
    else
      var settled := SettleNow(d.books, charge, d.events[e].body.t, providerDown);
      var status := if settled.error.None? then Completed else Failed;
      Handled(d.(books := settled.books, events := d.events[e := d.events[e].(status := status)]),
              settled.error.Some? && settled.error != Some(IntegrityMismatch))
  }

  /** Hand the event to the queue, or handle it here when there is none. A job id the queue still knows is not added. */
  function Enqueue(d: Desk, charge: Charge, e: nat, queueEnabled: bool, queueDown: bool, providerDown: bool): Desk {
    if !queueEnabled then HandleNow(d, charge, e, providerDown).desk
    else if queueDown || e in d.retained then d
    else d.(jobs := d.jobs + {e})
  }

  /** A signed charge.success for payment t: stored once, enqueued unless already completed. */
  function Ingest(d: Desk, charge: Charge, id: string, t: nat, queueEnabled: bool, queueDown: bool,
                  providerDown: bool): Desk {
    var found := FindEvent(d.events, id);
    if found.None? then
      Enqueue(d.(events := d.events + [WebhookEvent(id, ChargeSuccess(t), Pending)]), charge, |d.events|, queueEnabled,
              queueDown, providerDown)
    else if d.events[found.value].status == Completed then d
    else Enqueue(d, charge, found.value, queueEnabled, queueDown, providerDown)
  }

  /** The worker takes a waiting job; one that threw is kept for another attempt, or retained once these are used up. */
  function WorkJob(d: Desk, charge: Charge, e: nat, providerDown: bool, lastAttempt: bool): Desk {
    if e !in d.jobs then d
    else
      var handled := HandleNow(d, charge, e, providerDown);
      if !handled.threw then handled.desk.(jobs := d.jobs - {e})
      else if !lastAttempt then handled.desk
      else handled.desk.(jobs := d.jobs - {e}, retained := d.retained + {e})
  }

  /** getPaymentStatus: settles only what is still unconfirmed, and swallows every error. */
  function PollNow(d: Desk, charge: Charge, t: nat, providerDown: bool): Desk {
    if t < |d.books.payments| && d.books.payments[t].status in {CREATED, PENDING}
    then d.(books := SettleNow(d.books, charge, t, providerDown).books)
    else d
  }

  datatype ReplayOp =
    | Deliver(queueDown: bool, providerDown: bool)
    | Work(e: nat, providerDown: bool, lastAttempt: bool)
    | Poll(providerDown: bool)
    | Expire(e: nat)
    | Report(charge: Charge)

  /** The tables and queue, and what the provider reports for the payment at present. */
  datatype Scene = Scene(desk: Desk, charge: Charge)

  /** Deliveries, job runs, polls, expiring retained jobs and moves of the charge in any number and order, all for
      payment t and its one event id. */
  function Replay(sc: Scene, id: string, t: nat, queueEnabled: bool, ops: seq<ReplayOp>): Scene {
    if |ops| == 0 then sc
    else ReplayOne(Replay(sc, id, t, queueEnabled, ops[..|ops| - 1]), id, t, queueEnabled, ops[|ops| - 1])
  }

  function ReplayOne(sc: Scene, id: string, t: nat, queueEnabled: bool, op: ReplayOp): Scene {
    var d := sc.desk;
    match op
    case Deliver(queueDown, providerDown) =>
      sc.(desk := Ingest(d, sc.charge, id, t, queueEnabled, queueDown, providerDown))
    case Work(e, providerDown, lastAttempt) => sc.(desk := WorkJob(d, sc.charge, e, providerDown, lastAttempt))
    case Poll(providerDown) => sc.(desk := PollNow(d, sc.charge, t, providerDown))
    case Expire(e) => sc.(desk := d.(retained := d.retained - {e}))
    case Report(charge) => if sc.charge.Paid? then sc else sc.(charge := charge)
  }

  lemma {:induction false} ReplayConcat(sc: Scene, id: string, t: nat, queueEnabled: bool, xs: seq<ReplayOp>,
                                        ys: seq<ReplayOp>)
    ensures Replay(sc, id, t, queueEnabled, xs + ys)
            == Replay(Replay(sc, id, t, queueEnabled, xs), id, t, queueEnabled, ys)
  {
    if |ys| == 0 {
      assert xs + ys == xs;
    } else {
      assert (xs + ys)[..|xs + ys| - 1] == xs + ys[..|ys| - 1];
      ReplayConcat(sc, id, t, queueEnabled, xs, ys[..|ys| - 1]);
    }
  }

  /** Nothing of this reference stored or queued yet, and the payment can still be settled. */
  predicate Untouched(d: Desk, id: string, t: nat) {
    && t < |d.books.payments| && IsSettleable(d.books.payments[t].status)
    && d.jobs == {} && d.retained == {} && FindEvent(d.events, id).None?
  }

  /** The payment's rule is known and divides it into these lines. */
  predicate Divides(b: Books, t: nat, lines: seq<EntrySpec>) {
    t < |b.payments| && b.payments[t].splitRuleId.Some? && SplitLines(b, b.payments[t]) == Ok(lines)
  }

  /** A handler asks the provider now, and is answered: without a queue on delivery, with one when a job runs. */
  predicate Handles(d: Desk, op: ReplayOp, id: string, queueEnabled: bool) {
    match op
    case Deliver(_, providerDown) =>
      var found := FindEvent(d.events, id);
      !queueEnabled && !providerDown && (found.Some? ==> d.events[found.value].status != Completed)
    case Work(e, providerDown, _) =>
      e in d.jobs && !providerDown && e < |d.events| && d.events[e].status != Completed
    case _ => false
  }

  /** This operation settles, in the scene it meets: a handler or a poll asks, and is told of a matching success. */
  predicate Settles(sc: Scene, op: ReplayOp, id: string, t: nat, queueEnabled: bool) {
    var payments := sc.desk.books.payments;
    && t < |payments| && IsSettleable(payments[t].status) && ChargeMatches(sc.charge, payments[t])
    && (|| Handles(sc.desk, op, id, queueEnabled)
        || (op.Poll? && payments[t].status in {CREATED, PENDING} && !op.providerDown))
  }

  /** Some operation of the run settles. */
  predicate SomeSettles(sc: Scene, id: string, t: nat, queueEnabled: bool, ops: seq<ReplayOp>) {
    |ops| > 0
    && var shorter := ops[..|ops| - 1];
       || SomeSettles(sc, id, t, queueEnabled, shorter)
       || Settles(Replay(sc, id, t, queueEnabled, shorter), ops[|ops| - 1], id, t, queueEnabled)
  }

  predicate AnyDelivery(ops: seq<ReplayOp>) {
    exists op <- ops :: op.Deliver?
  }

  /** The events table after some of the operations: unchanged, or with the one row of this reference appended. */
  predicate EventsAre(events: seq<WebhookEvent>, before: seq<WebhookEvent>, id: string, t: nat, delivered: bool) {
    if delivered then
      && |events| == |before| + 1 && events[..|before|] == before
      && events[|before|].externalEventId == id && events[|before|].body == ChargeSuccess(t)
    else events == before
  }

  // ---------------------------------------------------------------- confluence

  /** Until something settles, only the payment's status may have moved, among those that can still be settled. */
  predicate NotSettledYet(before: Books, b: Books, t: nat)
    requires t < |before.payments|
  {
    && |b.payments| == |before.payments| && IsSettleable(b.payments[t].status)
    && b == before.(payments := before.payments[t := before.payments[t].(status := b.payments[t].status)])
  }

  /** The desk after operations some of which settled (or none), and some of which delivered (or none). */
  predicate DeskOk(d0: Desk, d: Desk, id: string, t: nat, settled: bool, delivered: bool, lines: seq<EntrySpec>)
    requires t < |d0.books.payments|
  {
    && (if settled then d.books == SettlePayment(d0.books, t, lines) else NotSettledYet(d0.books, d.books, t))
    && EventsAre(d.events, d0.events, id, t, delivered)
    && (forall e <- d.jobs :: delivered && e == |d0.events|)
    && (forall e <- d.retained :: delivered && e == |d0.events|)
  }

  lemma EventIsFound(d0: Desk, d: Desk, id: string, t: nat, delivered: bool)
    requires FindEvent(d0.events, id).None? && EventsAre(d.events, d0.events, id, t, delivered)
    ensures FindEvent(d.events, id) == if delivered then Some(|d0.events|) else None
  {
  }

  /** One call of settle on the books of a run so far. */
  lemma SettleKeeps(before: Books, b: Books, charge: Charge, t: nat, settled: bool, lines: seq<EntrySpec>,
                    providerDown: bool)
    requires Divides(before, t, lines) && IsSettleable(before.payments[t].status)
    requires if settled then b == SettlePayment(before, t, lines) else NotSettledYet(before, b, t)
    ensures var after := SettleNow(b, charge, t, providerDown);
            && (if settled || (!providerDown && ChargeMatches(charge, before.payments[t]))
                then after.books == SettlePayment(before, t, lines) && (settled || !providerDown ==> after.error.None?)
                else NotSettledYet(before, after.books, t))
            && (!settled && !providerDown ==>
                  (after.error.None? <==> !charge.Paid? || ChargeMatches(charge, before.payments[t])))
  {
  }

  lemma HandleKeeps(d0: Desk, d: Desk, charge: Charge, id: string, t: nat, settled: bool, lines: seq<EntrySpec>,
                    providerDown: bool)
    requires Untouched(d0, id, t) && Divides(d0.books, t, lines) && DeskOk(d0, d, id, t, settled, true, lines)
    ensures var h := HandleNow(d, charge, |d0.events|, providerDown);
            var asked := d.events[|d0.events|].status != Completed && !providerDown;
            && DeskOk(d0, h.desk, id, t, settled || (asked && ChargeMatches(charge, d0.books.payments[t])), true, lines)
            && h.desk.jobs == d.jobs && h.desk.retained == d.retained
  {
    SettleKeeps(d0.books, d.books, charge, t, settled, lines, providerDown);
  }

  lemma DeliveryKeeps(d0: Desk, sc: Scene, id: string, t: nat, queueEnabled: bool, op: ReplayOp, settled: bool,
                      delivered: bool, lines: seq<EntrySpec>)
    requires Untouched(d0, id, t) && Divides(d0.books, t, lines) && op.Deliver?
    requires DeskOk(d0, sc.desk, id, t, settled, delivered, lines)
    ensures DeskOk(d0, ReplayOne(sc, id, t, queueEnabled, op).desk, id, t,
                   settled || Settles(sc, op, id, t, queueEnabled), true, lines)
  {
    var d := sc.desk;
    EventIsFound(d0, d, id, t, delivered);
    var stored := if delivered then d else d.(events := d.events + [WebhookEvent(id, ChargeSuccess(t), Pending)]);
    assert DeskOk(d0, stored, id, t, settled, true, lines);
    HandleKeeps(d0, stored, sc.charge, id, t, settled, lines, op.providerDown);
  }

  lemma ReplayOneKeeps(d0: Desk, sc: Scene, id: string, t: nat, queueEnabled: bool, op: ReplayOp, settled: bool,
                       delivered: bool, lines: seq<EntrySpec>)
    requires Untouched(d0, id, t) && Divides(d0.books, t, lines)
    requires DeskOk(d0, sc.desk, id, t, settled, delivered, lines)
    ensures DeskOk(d0, ReplayOne(sc, id, t, queueEnabled, op).desk, id, t,
                   settled || Settles(sc, op, id, t, queueEnabled), delivered || op.Deliver?, lines)
  {
    match op
    case Deliver(_, _) => DeliveryKeeps(d0, sc, id, t, queueEnabled, op, settled, delivered, lines);
    case Work(e, providerDown, lastAttempt) =>
      if e in sc.desk.jobs {
        HandleKeeps(d0, sc.desk, sc.charge, id, t, settled, lines, providerDown);
      }
    case Poll(providerDown) => SettleKeeps(d0.books, sc.desk.books, sc.charge, t, settled, lines, providerDown);
    case Expire(_) =>
    case Report(_) =>
  }

  /** Any deliveries, job attempts and polls, in any number and order, while the charge moves as it likes: one event
      row, and the books of exactly one settlement once some operation settles; until then only the status moves. */
  lemma {:induction false} ReplayIsConfluent(sc: Scene, id: string, t: nat, queueEnabled: bool, ops: seq<ReplayOp>,
                                             lines: seq<EntrySpec>)
    requires Untouched(sc.desk, id, t) && Divides(sc.desk.books, t, lines)
    ensures DeskOk(sc.desk, Replay(sc, id, t, queueEnabled, ops).desk, id, t, SomeSettles(sc, id, t, queueEnabled, ops),
                   AnyDelivery(ops), lines)
  {
    if |ops| > 0 {
      var shorter, last := ops[..|ops| - 1], ops[|ops| - 1];
      ReplayIsConfluent(sc, id, t, queueEnabled, shorter, lines);
      ReplayOneKeeps(sc.desk, Replay(sc, id, t, queueEnabled, shorter), id, t, queueEnabled, last,
                     SomeSettles(sc, id, t, queueEnabled, shorter), AnyDelivery(shorter), lines);
      assert ops == shorter + [last];
    }
  }

  function OneDelivery(d: Desk, charge: Charge, id: string, t: nat): Books {
    Ingest(d, charge, id, t, false, false, false).books
  }

  lemma OneDeliverySettles(d: Desk, charge: Charge, id: string, t: nat, lines: seq<EntrySpec>)
    requires Untouched(d, id, t) && Divides(d.books, t, lines) && ChargeMatches(charge, d.books.payments[t])
    ensures OneDelivery(d, charge, id, t) == SettlePayment(d.books, t, lines)
  {
    ReplayOneKeeps(d, Scene(d, charge), id, t, false, Deliver(false, false), false, false, lines);
  }

  /** The books of a single delivery of a matching success handled in one go, exactly when some operation settles. */
  lemma ReplayEqualsOneDelivery(sc: Scene, id: string, t: nat, queueEnabled: bool, ops: seq<ReplayOp>,
                                lines: seq<EntrySpec>, success: Charge)
    requires Untouched(sc.desk, id, t) && Divides(sc.desk.books, t, lines)
    requires ChargeMatches(success, sc.desk.books.payments[t])
    ensures Replay(sc, id, t, queueEnabled, ops).desk.books == OneDelivery(sc.desk, success, id, t)
            <==> SomeSettles(sc, id, t, queueEnabled, ops)
  {
    ReplayIsConfluent(sc, id, t, queueEnabled, ops, lines);
    OneDeliverySettles(sc.desk, success, id, t, lines);
  }

  // ---------------------------------------------------------------- a charge that moves

  /** What the provider reported the first time a handler asked it. */
  function FirstReport(sc: Scene, id: string, t: nat, queueEnabled: bool, ops: seq<ReplayOp>): Option<Charge> {
    if |ops| == 0 then None
    else
      var shorter := ops[..|ops| - 1];
      var first, now := FirstReport(sc, id, t, queueEnabled, shorter), Replay(sc, id, t, queueEnabled, shorter);
      if first.None? && Handles(now.desk, ops[|ops| - 1], id, queueEnabled) then Some(now.charge) else first
  }

  /** What the first report leaves behind for good: a success, a mismatching success, or a completed event. */
  predicate Decided(d0: Desk, sc: Scene, t: nat, settled: bool, delivered: bool, first: Option<Charge>)
    requires t < |d0.books.payments| && (delivered ==> |d0.events| < |sc.desk.events|)
  {
    if first.None? then
      !settled && (delivered ==> sc.desk.events[|d0.events|].status != Completed)
    else
      && delivered && settled == ChargeMatches(first.value, d0.books.payments[t])
      && (first.value.Paid? ==> sc.charge == first.value)
      && (!first.value.Paid? ==> sc.desk.events[|d0.events|].status == Completed)
  }

  lemma HandleDecides(d0: Desk, d: Desk, charge: Charge, id: string, t: nat, settled: bool, lines: seq<EntrySpec>,
                      providerDown: bool)
    requires Untouched(d0, id, t) && Divides(d0.books, t, lines) && DeskOk(d0, d, id, t, settled, true, lines)
    ensures var before, after := d.events[|d0.events|].status,
                HandleNow(d, charge, |d0.events|, providerDown).desk.events[|d0.events|].status;
            && (before == Completed ==> after == Completed)
            && (before != Completed && !settled ==>
                  (after == Completed
                   <==> !providerDown && (!charge.Paid? || ChargeMatches(charge, d0.books.payments[t]))))
  {
    SettleKeeps(d0.books, d.books, charge, t, settled, lines, providerDown);
  }

  lemma DecidedStep(d0: Desk, sc: Scene, id: string, t: nat, queueEnabled: bool, op: ReplayOp, settled: bool,
                    delivered: bool, lines: seq<EntrySpec>, first: Option<Charge>)
    requires Untouched(d0, id, t) && Divides(d0.books, t, lines) && !op.Poll?
    requires DeskOk(d0, sc.desk, id, t, settled, delivered, lines) && Decided(d0, sc, t, settled, delivered, first)
    ensures var after := ReplayOne(sc, id, t, queueEnabled, op);
            var now := if first.None? && Handles(sc.desk, op, id, queueEnabled) then Some(sc.charge) else first;
            && (delivered || op.Deliver? ==> |d0.events| < |after.desk.events|)
            && Decided(d0, after, t, settled || Settles(sc, op, id, t, queueEnabled), delivered || op.Deliver?, now)
  {
    var d, charge := sc.desk, sc.charge;
    EventIsFound(d0, d, id, t, delivered);
    match op
    case Deliver(queueDown, providerDown) =>
      var stored := if delivered then d else d.(events := d.events + [WebhookEvent(id, ChargeSuccess(t), Pending)]);
      assert DeskOk(d0, stored, id, t, settled, true, lines);
      HandleDecides(d0, stored, charge, id, t, settled, lines, providerDown);
    case Work(e, providerDown, lastAttempt) =>
      if e in d.jobs {
        HandleDecides(d0, d, charge, id, t, settled, lines, providerDown);
      }
    case Expire(_) =>
    case Report(_) =>
  }

  /** Deliveries and jobs alone, whatever is down and whenever the charge moves: the payment is settled exactly if the
      first report a handler got was a matching success. A handler that came too early has completed the event, and no
      later delivery makes up for it. */
  lemma {:induction false} FirstReportDecides(sc: Scene, id: string, t: nat, queueEnabled: bool, ops: seq<ReplayOp>,
                                              lines: seq<EntrySpec>)
    requires Untouched(sc.desk, id, t) && Divides(sc.desk.books, t, lines)
    requires forall op <- ops :: !op.Poll?
    ensures var first := FirstReport(sc, id, t, queueEnabled, ops);
            var settled := first.Some? && ChargeMatches(first.value, sc.desk.books.payments[t]);
            var after := Replay(sc, id, t, queueEnabled, ops);
            && DeskOk(sc.desk, after.desk, id, t, settled, AnyDelivery(ops), lines)
            && SomeSettles(sc, id, t, queueEnabled, ops) == settled
            && Decided(sc.desk, after, t, settled, AnyDelivery(ops), first)
  {
    ReplayIsConfluent(sc, id, t, queueEnabled, ops, lines);
    if |ops| > 0 {
      var shorter, last := ops[..|ops| - 1], ops[|ops| - 1];
      assert ops == shorter + [last] && last in ops;
      FirstReportDecides(sc, id, t, queueEnabled, shorter, lines);
      DecidedStep(sc.desk, Replay(sc, id, t, queueEnabled, shorter), id, t, queueEnabled, last,
                  SomeSettles(sc, id, t, queueEnabled, shorter), AnyDelivery(shorter), lines,
                  FirstReport(sc, id, t, queueEnabled, shorter));
    }
  }

  /** For one: a job runs while the charge is still unpaid. Then it is paid, and no delivery settles it any more; a poll
      still would. */
  lemma HandledTooEarly(sc: Scene, id: string, t: nat, ops: seq<ReplayOp>, lines: seq<EntrySpec>, success: Charge)
    requires Untouched(sc.desk, id, t) && Divides(sc.desk.books, t, lines) && sc.charge == Unpaid
    requires ChargeMatches(success, sc.desk.books.payments[t]) && forall op <- ops :: !op.Poll?
    ensures var early := [Deliver(false, false), Work(|sc.desk.events|, false, false), Report(success)];
            && NotSettledYet(sc.desk.books, Replay(sc, id, t, true, early + ops).desk.books, t)
            && (sc.desk.books.payments[t].status in {CREATED, PENDING} ==>
                  Replay(sc, id, t, true, early + [Poll(false)]).desk.books == SettlePayment(sc.desk.books, t, lines))
  {
    var early := [Deliver(false, false), Work(|sc.desk.events|, false, false), Report(success)];
    EarlyReport(sc, id, t, success);
    FirstStays(sc, id, t, true, early, ops);
    FirstReportDecides(sc, id, t, true, early + ops, lines);
    ReplayIsConfluent(sc, id, t, true, early + [Poll(false)], lines);
    assert (early + [Poll(false)])[..|early|] == early;
  }

  lemma {:induction false} FirstStays(sc: Scene, id: string, t: nat, queueEnabled: bool, xs: seq<ReplayOp>,
                                      ys: seq<ReplayOp>)
    requires FirstReport(sc, id, t, queueEnabled, xs).Some?
    ensures FirstReport(sc, id, t, queueEnabled, xs + ys) == FirstReport(sc, id, t, queueEnabled, xs)
  {
    if |ys| == 0 {
      assert xs + ys == xs;
    } else {
      assert (xs + ys)[..|xs + ys| - 1] == xs + ys[..|ys| - 1];
      FirstStays(sc, id, t, queueEnabled, xs, ys[..|ys| - 1]);
    }
  }

  /** The job has reached the provider, which reported nothing paid, and completed the event. */
  lemma EarlyReport(sc: Scene, id: string, t: nat, success: Charge)
    requires Untouched(sc.desk, id, t) && sc.charge == Unpaid
    ensures var early := [Deliver(false, false), Work(|sc.desk.events|, false, false), Report(success)];
            var after := Replay(sc, id, t, true, early);
            && FirstReport(sc, id, t, true, early) == Some(Unpaid)
            && after.charge == success
            && after.desk.books == MovePayment(sc.desk.books, t, {CREATED}, PENDING)
  {
    var a, b, c := Deliver(false, false), Work(|sc.desk.events|, false, false), Report(success);
    assert [a, b, c][..2] == [a, b] && [a, b][..1] == [a] && [a][..0] == [];
    var stored := sc.desk.events + [WebhookEvent(id, ChargeSuccess(t), Pending)];
    var queued := sc.(desk := sc.desk.(events := stored, jobs := {|sc.desk.events|}));
    assert Replay(sc, id, t, true, []) == sc && FirstReport(sc, id, t, true, []) == None;
    assert Replay(sc, id, t, true, [a]) == ReplayOne(sc, id, t, true, a) == queued;
    assert FirstReport(sc, id, t, true, [a]) == None;
    assert Replay(sc, id, t, true, [a, b]) == ReplayOne(queued, id, t, true, b);
    assert FirstReport(sc, id, t, true, [a, b]) == Some(Unpaid);
    assert Replay(sc, id, t, true, [a, b, c]) == ReplayOne(ReplayOne(queued, id, t, true, b), id, t, true, c);
  }

  /** What another delivery needs, and the job it queues if there is a queue. */
  function Again(e: nat, queueEnabled: bool): seq<ReplayOp> {
    if queueEnabled then [Deliver(false, false), Work(e, false, false)] else [Deliver(false, false)]
  }

  /** When a redelivery still settles, after any run that has not: the event is new, or it is not completed and, with a
      queue, its job is waiting or no longer retained. */
  lemma RedeliverySettles(sc: Scene, id: string, t: nat, queueEnabled: bool, ops: seq<ReplayOp>, lines: seq<EntrySpec>)
    requires Untouched(sc.desk, id, t) && Divides(sc.desk.books, t, lines)
    requires !SomeSettles(sc, id, t, queueEnabled, ops)
    requires ChargeMatches(Replay(sc, id, t, queueEnabled, ops).charge, sc.desk.books.payments[t])
    ensures var d, e := Replay(sc, id, t, queueEnabled, ops).desk, |sc.desk.events|;
            Replay(sc, id, t, queueEnabled, ops + Again(e, queueEnabled)).desk.books
            == SettlePayment(sc.desk.books, t, lines)
            <==> FindEvent(d.events, id).None?
                 || (&& e < |d.events| && d.events[e].status != Completed
                     && (queueEnabled ==> e in d.jobs || e !in d.retained))
  {
    var before, e := Replay(sc, id, t, queueEnabled, ops), |sc.desk.events|;
    var more := ops + Again(e, queueEnabled);
    ReplayIsConfluent(sc, id, t, queueEnabled, ops, lines);
    ReplayIsConfluent(sc, id, t, queueEnabled, more, lines);
    EventIsFound(sc.desk, before.desk, id, t, AnyDelivery(ops));
    AgainSettles(sc, id, t, queueEnabled, ops, e);
  }

  lemma AgainSettles(sc: Scene, id: string, t: nat, queueEnabled: bool, ops: seq<ReplayOp>, e: nat)
    ensures var before, again := Replay(sc, id, t, queueEnabled, ops), Deliver(false, false);
            var stored := ReplayOne(before, id, t, queueEnabled, again);
            SomeSettles(sc, id, t, queueEnabled, ops + Again(e, queueEnabled))
            <==> || SomeSettles(sc, id, t, queueEnabled, ops) || Settles(before, again, id, t, queueEnabled)
                 || (queueEnabled && Settles(stored, Work(e, false, false), id, t, true))
  {
    var first, more := ops + [Deliver(false, false)], ops + Again(e, queueEnabled);
    assert first[..|ops|] == ops;
    if queueEnabled {
      assert more == first + [Work(e, false, false)] && more[..|first|] == first;
    } else {
      assert more == first;
    }
  }


  // ---------------------------------------------------------------- nothing down

  /** Queue and provider are reachable throughout. */
  predicate AllUp(ops: seq<ReplayOp>) {
    forall op <- ops :: IsUp(op)
  }

  predicate IsUp(op: ReplayOp) {
    op.Expire? || op.Report? || (!op.providerDown && (op.Deliver? ==> !op.queueDown))
  }

  /** With nothing down this operation settles: a delivery handled inline, a job attempt after a delivery, or a poll
      of a payment not yet reported failed. */
  predicate SettlesWhenUp(op: ReplayOp, e: nat, status: PaymentStatus, queueEnabled: bool, delivered: bool) {
    match op
    case Deliver(_, _) => !queueEnabled
    case Work(x, _, _) => queueEnabled && x == e && delivered
    case Poll(_) => status in {CREATED, PENDING}
    case _ => false
  }

  /** The operations include such a one. */
  predicate CanSettle(ops: seq<ReplayOp>, e: nat, status: PaymentStatus, queueEnabled: bool) {
    |ops| > 0
    && var shorter := ops[..|ops| - 1];
       || CanSettle(shorter, e, status, queueEnabled)
       || SettlesWhenUp(ops[|ops| - 1], e, status, queueEnabled, AnyDelivery(shorter))
  }

  /** Until something settles, a delivered event's job waits; without a queue there are no jobs. */
  predicate Ready(d0: Desk, d: Desk, queueEnabled: bool, settled: bool, delivered: bool) {
    && d.retained == {}
    && (!queueEnabled ==> d.jobs == {})
    && (queueEnabled && !settled ==> d.jobs == if delivered then {|d0.events|} else {})
    && (!settled ==> d.books == d0.books && (delivered ==> |d0.events| < |d.events|
                                                           && d.events[|d0.events|].status != Completed))
  }

  lemma UpStep(d0: Desk, sc: Scene, id: string, t: nat, queueEnabled: bool, op: ReplayOp, settled: bool,
               delivered: bool, lines: seq<EntrySpec>)
    requires Untouched(d0, id, t) && Divides(d0.books, t, lines) && ChargeMatches(sc.charge, d0.books.payments[t])
    requires DeskOk(d0, sc.desk, id, t, settled, delivered, lines)
    requires Ready(d0, sc.desk, queueEnabled, settled, delivered) && IsUp(op)
    ensures var settles := Settles(sc, op, id, t, queueEnabled);
            && Ready(d0, ReplayOne(sc, id, t, queueEnabled, op).desk, queueEnabled, settled || settles,
                     delivered || op.Deliver?)
            && (!settled ==>
                  settles == SettlesWhenUp(op, |d0.events|, d0.books.payments[t].status, queueEnabled, delivered))
            && ReplayOne(sc, id, t, queueEnabled, op).charge == sc.charge
  {
    EventIsFound(d0, sc.desk, id, t, delivered);
  }

  lemma {:induction false} UpMeansHandled(sc: Scene, id: string, t: nat, queueEnabled: bool, ops: seq<ReplayOp>,
                                          lines: seq<EntrySpec>)
    requires Untouched(sc.desk, id, t) && Divides(sc.desk.books, t, lines) && AllUp(ops)
    requires ChargeMatches(sc.charge, sc.desk.books.payments[t])
    ensures var settled := SomeSettles(sc, id, t, queueEnabled, ops);
            && settled == CanSettle(ops, |sc.desk.events|, sc.desk.books.payments[t].status, queueEnabled)
            && Ready(sc.desk, Replay(sc, id, t, queueEnabled, ops).desk, queueEnabled, settled, AnyDelivery(ops))
            && Replay(sc, id, t, queueEnabled, ops).charge == sc.charge
  {
    if |ops| > 0 {
      var shorter, last := ops[..|ops| - 1], ops[|ops| - 1];
      assert ops == shorter + [last] && last in ops;
      UpMeansHandled(sc, id, t, queueEnabled, shorter, lines);
      ReplayIsConfluent(sc, id, t, queueEnabled, shorter, lines);
      UpStep(sc.desk, Replay(sc, id, t, queueEnabled, shorter), id, t, queueEnabled, last,
             SomeSettles(sc, id, t, queueEnabled, shorter), AnyDelivery(shorter), lines);
    }
  }

  /** With nothing down, a run against a matching success equals a single delivery exactly if it includes one handled
      inline, a job attempt after one, or a poll of a payment not yet reported failed: polls alone never settle a FAILED
      payment. */
  lemma WithoutOutages(sc: Scene, id: string, t: nat, queueEnabled: bool, ops: seq<ReplayOp>, lines: seq<EntrySpec>)
    requires Untouched(sc.desk, id, t) && Divides(sc.desk.books, t, lines) && AllUp(ops)
    requires ChargeMatches(sc.charge, sc.desk.books.payments[t])
    ensures Replay(sc, id, t, queueEnabled, ops).desk.books == OneDelivery(sc.desk, sc.charge, id, t)
            <==> CanSettle(ops, |sc.desk.events|, sc.desk.books.payments[t].status, queueEnabled)
  {
    UpMeansHandled(sc, id, t, queueEnabled, ops, lines);
    ReplayEqualsOneDelivery(sc, id, t, queueEnabled, ops, lines, sc.charge);
  }

  /** For one: a single poll of a payment once reported failed leaves the books behind those of a delivery. */
  lemma PollOfFailedSettlesNothing(sc: Scene, id: string, t: nat, queueEnabled: bool, lines: seq<EntrySpec>)
    requires Untouched(sc.desk, id, t) && Divides(sc.desk.books, t, lines)
    requires ChargeMatches(sc.charge, sc.desk.books.payments[t])
    requires sc.desk.books.payments[t].status == PaymentStatus.FAILED
    ensures Replay(sc, id, t, queueEnabled, [Poll(false)]).desk.books == sc.desk.books
    ensures sc.desk.books != OneDelivery(sc.desk, sc.charge, id, t)
  {
    var ops := [Poll(false)];
    assert ops[..0] == [];
    assert !CanSettle(ops[..0], |sc.desk.events|, PaymentStatus.FAILED, queueEnabled);
    assert Replay(sc, id, t, queueEnabled, ops[..0]) == sc;
    WithoutOutages(sc, id, t, queueEnabled, ops, lines);
  }

  // ---------------------------------------------------------------- a success that does not match

  /** The provider's success is not what was initialized: another amount, another currency, or no rule to divide by. */
  predicate IsWrong(payment: Payment, amountKobo: int, currency: Option<string>) {
    || amountKobo != payment.terms.grossAmountKobo
    || (currency.Some? && currency.value != "" && currency.value != "NGN")
    || payment.splitRuleId == None
  }

  /** The provider reports such a success. */
  predicate Mismatching(d0: Desk, charge: Charge, t: nat)
    requires t < |d0.books.payments|
  {
    charge.Paid? && IsWrong(d0.books.payments[t], charge.amountKobo, charge.currency)
  }

  /** The books are untouched and the event, if stored, waits or has failed. */
  predicate Parked(d0: Desk, d: Desk, id: string, t: nat, delivered: bool) {
    && d.books == d0.books
    && EventsAre(d.events, d0.events, id, t, delivered)
    && (forall e <- d.jobs :: delivered && e == |d0.events|)
    && (forall e <- d.retained :: delivered && e == |d0.events|)
    && (delivered ==> d.events[|d0.events|].status in {Pending, Failed})
  }

  lemma MismatchStep(d0: Desk, sc: Scene, id: string, t: nat, queueEnabled: bool, op: ReplayOp, delivered: bool)
    requires Untouched(d0, id, t) && Mismatching(d0, sc.charge, t) && Parked(d0, sc.desk, id, t, delivered)
    ensures var after := ReplayOne(sc, id, t, queueEnabled, op);
            Parked(d0, after.desk, id, t, delivered || op.Deliver?) && after.charge == sc.charge
  {
    EventIsFound(d0, sc.desk, id, t, delivered);
  }

  /** Against a mismatching success nothing ever changes payment, ledger or payouts, and the event is never
      completed. */
  lemma {:induction false} MismatchChangesNothing(sc: Scene, id: string, t: nat, queueEnabled: bool,
                                                  ops: seq<ReplayOp>)
    requires Untouched(sc.desk, id, t) && Mismatching(sc.desk, sc.charge, t)
    ensures var after := Replay(sc, id, t, queueEnabled, ops);
            Parked(sc.desk, after.desk, id, t, AnyDelivery(ops)) && after.charge == sc.charge
  {
    if |ops| > 0 {
      var shorter, last := ops[..|ops| - 1], ops[|ops| - 1];
      MismatchChangesNothing(sc, id, t, queueEnabled, shorter);
      MismatchStep(sc.desk, Replay(sc, id, t, queueEnabled, shorter), id, t, queueEnabled, last, AnyDelivery(shorter));
      assert ops == shorter + [last];
    }
  }

  // ---------------------------------------------------------------- a job whose attempts are used up

  /** With a queue, a redelivery leads to another attempt exactly if one is waiting anyway, or the event is not
      completed, the queue is up, and the queue no longer retains the event's job. */
  lemma RedeliveryQueues(d: Desk, charge: Charge, id: string, t: nat, e: nat, queueDown: bool, providerDown: bool)
    requires FindEvent(d.events, id) == Some(e)
    ensures e in Ingest(d, charge, id, t, true, queueDown, providerDown).jobs
            <==> e in d.jobs || (d.events[e].status != Completed && !queueDown && e !in d.retained)
  {
  }

  /** While it is retained, redeliveries and workers change nothing at all: the event is stored but forgotten. */
  lemma {:induction false} RetainedIsForgotten(sc: Scene, id: string, t: nat, e: nat, ops: seq<ReplayOp>)
    requires FindEvent(sc.desk.events, id) == Some(e) && e in sc.desk.retained && sc.desk.jobs == {}
    requires forall op <- ops :: op.Deliver? || op.Work? || op.Report?
    ensures Replay(sc, id, t, true, ops).desk == sc.desk
  {
    if |ops| > 0 {
      assert ops[|ops| - 1] in ops;
      RetainedIsForgotten(sc, id, t, e, ops[..|ops| - 1]);
    }
  }

  /** For one: the provider is down for the last attempt, and no redelivery settles a paid charge until it expires. */
  lemma ForgottenAfterOutage(sc: Scene, id: string, t: nat, ops: seq<ReplayOp>)
    requires Untouched(sc.desk, id, t) && forall op <- ops :: op.Deliver? || op.Work? || op.Report?
    ensures var outage := [Deliver(false, false), Work(|sc.desk.events|, true, true)];
            && Replay(sc, id, t, true, outage + ops).desk.books == sc.desk.books
            && |sc.desk.events| in Replay(sc, id, t, true, outage + ops).desk.retained
  {
    var deliver, work := Deliver(false, false), Work(|sc.desk.events|, true, true);
    var outage := [deliver, work];
    assert outage[..1][..0] == [] && outage[..1] == [deliver];
    var stored := Replay(sc, id, t, true, outage[..1]);
    assert stored == ReplayOne(Replay(sc, id, t, true, []), id, t, true, deliver);
    var after := Replay(sc, id, t, true, outage);
    assert after == ReplayOne(stored, id, t, true, work);
    assert after.desk.jobs == {} && |sc.desk.events| in after.desk.retained
           && FindEvent(after.desk.events, id) == Some(|sc.desk.events|);
    RetainedIsForgotten(after, id, t, |sc.desk.events|, ops);
    ReplayConcat(sc, id, t, true, outage, ops);
  }
}
