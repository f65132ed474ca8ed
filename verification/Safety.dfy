/** What holds in every reachable state, for any number of workers and any interleaving. */
module Safety {
  import opened Wrappers
  import opened Ledger
  import opened Tables
  import opened TablesInvariant
  import opened Protocol

  // ---------------------------------------------------------------- the invariant

  predicate HasPayout(s: State, p: nat) { p < |s.books.payouts| }

  predicate SeenOk(s: State, p: nat, seen: Payout) {
    && HasPayout(s, p)
    && SameObligation(seen, s.books.payouts[p])
    && seen.attempts <= s.books.payouts[p].attempts
    && seen.transferReference == CurrentReference(p, seen.attempts)
    && IsOpen(seen.status)
  }

  predicate AttemptOk(s: State, p: nat, attempt: nat) {
    HasPayout(s, p) && 1 <= attempt <= s.books.payouts[p].attempts
  }

  /** Terms and rule are the same. */
  predicate SameQuote(x: Payment, y: Payment) {
    x.terms == y.terms && x.splitRuleId == y.splitRuleId
  }

  predicate QuoteOk(s: State, t: nat, quoted: Payment) {
    && t < |s.books.payments| && t < |s.charges|
    && SameQuote(quoted, s.books.payments[t])
  }

  /** What a worker carries from one step to the next is still justified. */
  predicate WorkerOk(s: State, worker: Worker) {
    match worker.pc
    case PayoutVerify(p, seen) => SeenOk(s, p, seen)
    case PayoutResolve(p, seen) => SeenOk(s, p, seen)
    case PayoutHold(p, was) => HasPayout(s, p) && IsOpen(was)
    case PayoutClaim(p, seen, _) => SeenOk(s, p, seen)
    case PayoutRecipient(p, attempt, _) => AttemptOk(s, p, attempt)
    case PayoutRecipientSave(p, attempt, code) => AttemptOk(s, p, attempt) && code in s.recipients
    case PayoutInitiate(p, attempt, code) => AttemptOk(s, p, attempt) && code in s.recipients
    case EventRead(ref, event, _) => event == TransferSucceeded ==> ref in s.everDelivered
    case EventFail(p, _, _, _, _) => HasPayout(s, p)
    case EventReverse(p, _, entries, _, _) =>
      && HasPayout(s, p)
      && PayoutReversalEntries(s.books.payouts[p].account, s.books.payouts[p].amountKobo) == Ok(entries)
    case MarkRead(p, ref) => HasPayout(s, p) && ref in s.everDelivered
    case MarkCommit(p, ref, entries) =>
      && HasPayout(s, p) && ref in s.everDelivered
      && PayoutEntries(s.books.payouts[p].account, s.books.payouts[p].amountKobo) == Ok(entries)
    case FlagWrite(p) => HasPayout(s, p)
    case ReviewWrite(p, _) => HasPayout(s, p)
    case SettleVerify(t, quoted) => QuoteOk(s, t, quoted)
    case SettleMove(t, from, to) =>
      && t < |s.books.payments|
      && (|| (from == {CREATED, PENDING} && to == PaymentStatus.FAILED)
          || (from == {CREATED} && to == PENDING))
    case SettleRule(t, quoted) => QuoteOk(s, t, quoted) && ChargeMatches(s.charges[t], quoted)
    case SettleCommit(t, entries) =>
      && t < |s.books.payments| && t < |s.charges|
      && SplitLines(s.books, s.books.payments[t]) == Ok(entries)
      && ChargeMatches(s.charges[t], s.books.payments[t])
    case _ => true
  }

  ghost predicate WorkersOk(s: State) { forall w <- s.workers.Keys :: WorkerOk(s, s.workers[w]) }

  /** Every transfer belongs to a claimed attempt of an existing payout and moves exactly its amount. */
  predicate TransferOk(s: State, ref: Reference)
    requires ref in s.transfers
  {
    && AttemptOk(s, ref.payout, ref.attempt)
    && s.transfers[ref].amountKobo == s.books.payouts[ref.payout].amountKobo
    && (s.transfers[ref].status == Delivered ==> ref in s.everDelivered)
  }

  ghost predicate TransfersOk(s: State) {
    forall ref <- s.transfers.Keys :: TransferOk(s, ref)
  }

  /** SUCCESS is only ever recorded for a current reference the provider reported successful. */
  ghost predicate SuccessOk(s: State) {
    forall p | 0 <= p < |s.books.payouts| && s.books.payouts[p].status == PayoutStatus.SUCCESS ::
      s.books.payouts[p].transferReference.Some? && s.books.payouts[p].transferReference.value in s.everDelivered
  }

  /** A settled payment was paid: the amount, currency and rule it was initialized with. */
  ghost predicate ChargesOk(s: State) {
    && |s.charges| == |s.books.payments|
    && forall t | 0 <= t < |s.charges| && IsSettled(s.books, t) :: ChargeMatches(s.charges[t], s.books.payments[t])
  }

  /** The attempt numbers claimed for one payout, in order. */
  function ClaimsFor(claims: seq<Claim>, p: nat): seq<nat> {
    if |claims| == 0 then []
    else
      var c := claims[|claims| - 1];
      ClaimsFor(claims[..|claims| - 1], p) + if c.payout == p then [c.attempt] else []
  }

  function UpTo(n: nat): seq<nat> {
    seq(n, i => i + 1)
  }

  ghost predicate ClaimsOk(s: State) {
    forall p: nat :: ClaimsFor(s.claims, p) == UpTo(if HasPayout(s, p) then s.books.payouts[p].attempts else 0)
  }

  ghost predicate Inv(s: State) {
    && Consistent(s.books) && WorkersOk(s) && TransfersOk(s) && SuccessOk(s) && ChargesOk(s) && ClaimsOk(s)
  }

  // ---------------------------------------------------------------- monotonicity

  ghost predicate StateExtends(s: State, s': State) {
    && Extends(s.books, s'.books)
    && |s.charges| <= |s'.charges|
    && (forall t | 0 <= t < |s.charges| && s.charges[t].Paid? :: s'.charges[t] == s.charges[t])
    && s.everDelivered <= s'.everDelivered
    && (forall code <- s.recipients.Keys :: code in s'.recipients && s'.recipients[code] == s.recipients[code])
  }

  /** Nothing anyone else does invalidates what a worker carries. */
  lemma WorkerSurvives(s: State, s': State, worker: Worker)
    requires WorkerOk(s, worker) && StateExtends(s, s')
    ensures WorkerOk(s', worker)
  {
  }

  // ---------------------------------------------------------------- the books

  lemma Updated(b: Books, p: nat, c: Books)
    requires Consistent(b) && p < |b.payouts| && p < |c.payouts| && c == SetPayout(b, p, c.payouts[p])
    requires Rewrites(p, b.payouts[p], c.payouts[p])
    requires c.payouts[p].status == PayoutStatus.SUCCESS <==> b.payouts[p].status == PayoutStatus.SUCCESS
    ensures Consistent(c) && Extends(b, c)
  {
    TouchKeepsConsistent(b, p, c.payouts[p]);
  }

  lemma Unchanged(b: Books, p: nat)
    requires p < |b.payouts|
    ensures b == SetPayout(b, p, b.payouts[p])
  {
  }

  predicate WritesPayout(pc: Pc) {
    || pc.PayoutHold? || pc.PayoutClaim? || pc.PayoutRecipientSave?
    || pc.FlagWrite? || pc.ReviewWrite? || pc.EventFail?
  }

  predicate Posts(pc: Pc) {
    pc.MarkCommit? || pc.EventReverse? || pc.SettleMove? || pc.SettleCommit?
  }

  /** Such a step rewrites its own payout row, if any, and neither enters nor leaves SUCCESS. */
  lemma WrittenRow(s: State, w: nat, choice: Choice)
    requires w in s.workers && WorkerOk(s, s.workers[w]) && WritesPayout(s.workers[w].pc)
    requires PayoutOk(s.books, s.workers[w].pc.p)
    ensures var b, c, p := s.books, Step(s, w, choice).books, s.workers[w].pc.p;
            && p < |c.payouts| && c == SetPayout(b, p, c.payouts[p])
            && Rewrites(p, b.payouts[p], c.payouts[p])
            && (c.payouts[p].status == PayoutStatus.SUCCESS <==> b.payouts[p].status == PayoutStatus.SUCCESS)
  {
    Unchanged(s.books, s.workers[w].pc.p);
  }

  lemma KeepsBooksPayout(s: State, w: nat, choice: Choice)
    requires Consistent(s.books) && w in s.workers && WorkerOk(s, s.workers[w]) && WritesPayout(s.workers[w].pc)
    ensures var c := Step(s, w, choice).books; Consistent(c) && Extends(s.books, c)
  {
    var p := s.workers[w].pc.p;
    assert PayoutOk(s.books, p);
    WrittenRow(s, w, choice);
    Updated(s.books, p, Step(s, w, choice).books);
  }

  lemma KeepsBooksSettling(s: State, w: nat, choice: Choice)
    requires Consistent(s.books) && w in s.workers && WorkerOk(s, s.workers[w])
    requires s.workers[w].pc.SettleMove? || s.workers[w].pc.SettleCommit?
    ensures var c := Step(s, w, choice).books; Consistent(c) && Extends(s.books, c)
  {
    var pc := s.workers[w].pc;
    if pc.SettleMove? {
      KeepsBooksMove(s, w, choice);
    } else {
      KeepsBooksCommit(s, w, choice);
    }
  }

  lemma KeepsBooksMove(s: State, w: nat, choice: Choice)
    requires Consistent(s.books) && w in s.workers && WorkerOk(s, s.workers[w]) && s.workers[w].pc.SettleMove?
    ensures var c := Step(s, w, choice).books; Consistent(c) && Extends(s.books, c)
  {
    var pc := s.workers[w].pc;
    MovePaymentKeepsConsistent(s.books, pc.t, pc.from, pc.to);
  }

  lemma KeepsBooksCommit(s: State, w: nat, choice: Choice)
    requires Consistent(s.books) && w in s.workers && WorkerOk(s, s.workers[w]) && s.workers[w].pc.SettleCommit?
    ensures var c := Step(s, w, choice).books; Consistent(c) && Extends(s.books, c)
  {
    var pc := s.workers[w].pc;
    SettleKeepsConsistent(s.books, pc.t, pc.entries);
    SettleExtends(s.books, pc.t, pc.entries);
  }

  lemma KeepsBooksMark(s: State, w: nat, choice: Choice)
    requires Consistent(s.books) && w in s.workers && WorkerOk(s, s.workers[w]) && s.workers[w].pc.MarkCommit?
    ensures var c := Step(s, w, choice).books; Consistent(c) && Extends(s.books, c)
  {
    var pc := s.workers[w].pc;
    SucceedKeepsConsistent(s.books, pc.p, pc.ref, pc.entries);
  }

  lemma KeepsBooksReverse(s: State, w: nat, choice: Choice)
    requires Consistent(s.books) && w in s.workers && WorkerOk(s, s.workers[w]) && s.workers[w].pc.EventReverse?
    ensures var c := Step(s, w, choice).books; Consistent(c) && Extends(s.books, c)
  {
    var pc := s.workers[w].pc;
    ReverseKeepsConsistent(s.books, pc.p, pc.ref, pc.entries, pc.given);
    assert Step(s, w, choice).books == ReversePayout(s.books, pc.p, pc.ref, pc.entries, pc.given);
  }

  lemma KeepsBooksPosting(s: State, w: nat, choice: Choice)
    requires Consistent(s.books) && w in s.workers && WorkerOk(s, s.workers[w]) && Posts(s.workers[w].pc)
    ensures var c := Step(s, w, choice).books; Consistent(c) && Extends(s.books, c)
  {
    if s.workers[w].pc.MarkCommit? {
      KeepsBooksMark(s, w, choice);
    } else if s.workers[w].pc.EventReverse? {
      KeepsBooksReverse(s, w, choice);
    } else {
      KeepsBooksSettling(s, w, choice);
    }
  }

  lemma StepKeepsBooks(s: State, w: nat, choice: Choice)
    requires Consistent(s.books) && w in s.workers && WorkerOk(s, s.workers[w])
    ensures var c := Step(s, w, choice).books; Consistent(c) && Extends(s.books, c)
  {
    if WritesPayout(s.workers[w].pc) {
      KeepsBooksPayout(s, w, choice);
    } else if Posts(s.workers[w].pc) {
      KeepsBooksPosting(s, w, choice);
    } else {
      Quiet(s, w, choice);
    }
  }

  /** Reads and provider calls leave the books alone. */
  lemma Quiet(s: State, w: nat, choice: Choice)
    requires w in s.workers && !WritesPayout(s.workers[w].pc) && !Posts(s.workers[w].pc)
    ensures Step(s, w, choice).books == s.books
    ensures Step(s, w, choice).claims == s.claims
  {
  }

  lemma RetryKeepsBooks(b: Books, p: nat)
    requires Consistent(b) && p < |b.payouts|
    ensures Consistent(RetryPayout(b, p)) && Extends(b, RetryPayout(b, p))
  {
    assert PayoutOk(b, p);
    Unchanged(b, p);
    Updated(b, p, RetryPayout(b, p));
  }

  lemma KeepsBooks(serial: bool, s: State, a: Action)
    requires Consistent(s.books) && WorkersOk(s)
    ensures var c := Apply(serial, s, a).books; Consistent(c) && Extends(s.books, c)
  {
    if a.NewRule? || a.NewPayment? {
      NewRowsKeepBooks(serial, s, a);
    } else if a.Retry? {
      if a.p < |s.books.payouts| {
        RetryKeepsBooks(s.books, a.p);
      }
    } else if a.Advance? {
      if a.w in s.workers {
        assert WorkerOk(s, s.workers[a.w]);
        StepKeepsBooks(s, a.w, a.choice);
      }
    } else {
      OthersKeepBooks(serial, s, a);
    }
  }

  lemma NewRowsKeepBooks(serial: bool, s: State, a: Action)
    requires Consistent(s.books) && (a.NewRule? || a.NewPayment?)
    ensures var c := Apply(serial, s, a).books; Consistent(c) && Extends(s.books, c)
  {
    match a
    case NewRule(split) => AddRuleKeepsConsistent(s.books, split);
    case NewPayment(_, _, _) => NewPaymentKeepsBooks(serial, s, a);
  }

  lemma NewPaymentKeepsBooks(serial: bool, s: State, a: Action)
    requires Consistent(s.books) && a.NewPayment?
    ensures var c := Apply(serial, s, a).books; Consistent(c) && Extends(s.books, c)
  {
    AddPaymentKeepsConsistent(s.books, Payment(a.terms, a.splitRuleId, if a.checkoutOpened then CREATED
                                               else PaymentStatus.FAILED));
  }

  lemma OthersKeepBooks(serial: bool, s: State, a: Action)
    requires !a.NewRule? && !a.NewPayment? && !a.Retry? && !a.Advance?
    ensures Apply(serial, s, a).books == s.books
  {
  }

  /** Paid charges, recipients and delivered transfers are never forgotten. */
  lemma ProvidersGrow(serial: bool, s: State, a: Action)
    ensures var s' := Apply(serial, s, a);
            && |s.charges| <= |s'.charges|
            && (forall t | 0 <= t < |s.charges| && s.charges[t].Paid? :: s'.charges[t] == s.charges[t])
            && s.everDelivered <= s'.everDelivered
            && (forall code <- s.recipients.Keys :: code in s'.recipients && s'.recipients[code] == s.recipients[code])
  {
    if a.Advance? && a.w in s.workers && !AsksForTransfer(s.workers[a.w].pc) {
      LeavesProviders(s, a.w, a.choice);
    }
  }

  predicate AsksForTransfer(pc: Pc) {
    pc.PayoutRecipient? || pc.PayoutInitiate?
  }

  lemma LeavesProviders(s: State, w: nat, choice: Choice)
    requires w in s.workers && !AsksForTransfer(s.workers[w].pc)
    ensures var s' := Step(s, w, choice);
            && s'.charges == s.charges && s'.everDelivered == s.everDelivered
            && s'.transfers == s.transfers && s'.recipients == s.recipients
  {
    if WritesPayout(s.workers[w].pc) {
      WritesLeaveProviders(s, w, choice);
    } else if Posts(s.workers[w].pc) {
      PostsLeaveProviders(s, w, choice);
    }
  }

  lemma PostsLeaveProviders(s: State, w: nat, choice: Choice)
    requires w in s.workers && Posts(s.workers[w].pc)
    ensures var s' := Step(s, w, choice);
            && s'.charges == s.charges && s'.everDelivered == s.everDelivered
            && s'.transfers == s.transfers && s'.recipients == s.recipients
  {
  }

  lemma WritesLeaveProviders(s: State, w: nat, choice: Choice)
    requires w in s.workers && WritesPayout(s.workers[w].pc)
    ensures var s' := Step(s, w, choice);
            && s'.charges == s.charges && s'.everDelivered == s.everDelivered
            && s'.transfers == s.transfers && s'.recipients == s.recipients
  {
  }

  lemma Grows(serial: bool, s: State, a: Action)
    requires Consistent(s.books) && WorkersOk(s)
    ensures StateExtends(s, Apply(serial, s, a))
  {
    KeepsBooks(serial, s, a);
    ProvidersGrow(serial, s, a);
  }

  // ---------------------------------------------------------------- workers

  lemma {:induction false} Found(payouts: seq<Payout>, ref: Reference)
    ensures var found := FindByReference(payouts, ref);
            found.Some? ==> found.value < |payouts| && payouts[found.value].transferReference == Some(ref)
  {
    if |payouts| > 0 {
      Found(payouts[..|payouts| - 1], ref);
    }
  }

  predicate NextOk(s: State, w: nat) {
    w in s.workers ==> WorkerOk(s, s.workers[w])
  }

  predicate BeforeClaim(pc: Pc) {
    pc.PayoutRead? || pc.PayoutVerify? || pc.PayoutResolve? || pc.PayoutHold?
  }

  predicate FromClaimOn(pc: Pc) {
    pc.PayoutClaim? || pc.PayoutRecipient? || pc.PayoutRecipientSave? || pc.PayoutInitiate?
  }

  lemma BeforeClaimKeepsWorker(s: State, w: nat, choice: Choice)
    requires PayoutsOk(s.books) && TransfersOk(s) && w in s.workers && WorkerOk(s, s.workers[w])
    requires BeforeClaim(s.workers[w].pc)
    ensures NextOk(Step(s, w, choice), w)
  {
    var pc := s.workers[w].pc;
    if pc.PayoutRead? && pc.p < |s.books.payouts| {
      assert PayoutOk(s.books, pc.p);
    } else if pc.PayoutVerify? {
      VerifyKeepsWorker(s, w, choice);
    }
  }

  lemma VerifyKeepsWorker(s: State, w: nat, choice: Choice)
    requires TransfersOk(s) && w in s.workers && WorkerOk(s, s.workers[w]) && s.workers[w].pc.PayoutVerify?
    ensures NextOk(Step(s, w, choice), w)
  {
    var pc := s.workers[w].pc;
    if pc.seen.transferReference.Some? && pc.seen.transferReference.value in s.transfers {
      assert TransferOk(s, pc.seen.transferReference.value);
    }
  }

  lemma FromClaimOnKeepsWorker(s: State, w: nat, choice: Choice)
    requires TransfersOk(s) && w in s.workers && WorkerOk(s, s.workers[w]) && FromClaimOn(s.workers[w].pc)
    ensures NextOk(Step(s, w, choice), w)
  {
    var pc := s.workers[w].pc;
    if pc.PayoutInitiate? && Reference(pc.p, pc.attempt) in s.transfers {
      assert TransferOk(s, Reference(pc.p, pc.attempt));
    }
  }

  lemma EventStepKeepsWorker(s: State, w: nat, choice: Choice)
    requires w in s.workers && WorkerOk(s, s.workers[w])
    requires var pc := s.workers[w].pc;
             || pc.EventRead? || pc.EventFail? || pc.EventReverse? || pc.MarkRead? || pc.MarkCommit?
             || pc.FlagWrite? || pc.ReviewWrite?
    ensures NextOk(Step(s, w, choice), w)
  {
    if s.workers[w].pc.EventRead? {
      Found(s.books.payouts, s.workers[w].pc.ref);
    }
  }

  lemma SettleStepKeepsWorker(s: State, w: nat, choice: Choice)
    requires |s.charges| == |s.books.payments| && w in s.workers && WorkerOk(s, s.workers[w])
    requires var pc := s.workers[w].pc;
             || pc.SettleRead? || pc.SettleVerify? || pc.SettleMove? || pc.SettleRule? || pc.SettleCommit?
    ensures NextOk(Step(s, w, choice), w)
  {
    if Posts(s.workers[w].pc) {
      SettleEnds(s, w, choice);
    }
  }

  lemma SettleEnds(s: State, w: nat, choice: Choice)
    requires w in s.workers && (s.workers[w].pc.SettleMove? || s.workers[w].pc.SettleCommit?)
    ensures w !in Step(s, w, choice).workers
  {
  }

  lemma StepKeepsWorker(s: State, w: nat, choice: Choice)
    requires PayoutsOk(s.books) && TransfersOk(s) && |s.charges| == |s.books.payments|
    requires w in s.workers && WorkerOk(s, s.workers[w])
    ensures NextOk(Step(s, w, choice), w)
  {
    var pc := s.workers[w].pc;
    if BeforeClaim(pc) {
      BeforeClaimKeepsWorker(s, w, choice);
    } else if FromClaimOn(pc) {
      FromClaimOnKeepsWorker(s, w, choice);
    } else if pc.SettleRead? || pc.SettleVerify? || pc.SettleMove? || pc.SettleRule? || pc.SettleCommit? {
      SettleStepKeepsWorker(s, w, choice);
    } else {
      EventStepKeepsWorker(s, w, choice);
    }
  }

  predicate SameWorker(s: State, s': State, v: nat) {
    (v in s'.workers <==> v in s.workers) && (v in s.workers ==> s'.workers[v] == s.workers[v])
  }

  lemma WriteIsLocal(s: State, w: nat, choice: Choice, v: nat)
    requires w in s.workers && v != w && (WritesPayout(s.workers[w].pc) || Posts(s.workers[w].pc))
    ensures SameWorker(s, Step(s, w, choice), v)
  {
  }

  /** A step changes no worker but its own. */
  lemma StepIsLocal(s: State, w: nat, choice: Choice, v: nat)
    requires w in s.workers && v != w
    ensures SameWorker(s, Step(s, w, choice), v)
  {
    if WritesPayout(s.workers[w].pc) || Posts(s.workers[w].pc) {
      WriteIsLocal(s, w, choice, v);
    }
  }

  predicate Steps(s: State, a: Action, v: nat) {
    a.Advance? && a.w == v && v in s.workers
  }

  /** Any other worker is either untouched or has just been started. */
  lemma OtherWorkers(serial: bool, s: State, a: Action, v: nat)
    requires v in Apply(serial, s, a).workers && !Steps(s, a, v)
    ensures var s' := Apply(serial, s, a);
            if v in s.workers then s'.workers[v] == s.workers[v] else WorkerOk(s', s'.workers[v])
  {
    if a.Advance? && a.w in s.workers {
      StepIsLocal(s, a.w, a.choice, v);
    }
  }

  lemma KeepsWorkers(serial: bool, s: State, a: Action)
    requires WorkersOk(s) && PayoutsOk(s.books) && TransfersOk(s) && |s.charges| == |s.books.payments|
    requires StateExtends(s, Apply(serial, s, a))
    ensures WorkersOk(Apply(serial, s, a))
  {
    var s' := Apply(serial, s, a);
    forall v <- s'.workers.Keys ensures WorkerOk(s', s'.workers[v]) {
      if Steps(s, a, v) {
        StepKeepsWorker(s, v, a.choice);
      } else {
        OtherWorkers(serial, s, a, v);
        if v in s.workers {
          WorkerSurvives(s, s', s.workers[v]);
        }
      }
    }
  }

  // ---------------------------------------------------------------- transfers, successes, charges, claims

  lemma InitiateKeepsTransfers(s: State, w: nat, p: nat, attempt: nat, code: string, choice: Choice)
    requires TransfersOk(s) && w in s.workers && AttemptOk(s, p, attempt) && code in s.recipients
    ensures TransfersOk(StepPayoutInitiate(s, w, p, attempt, code, choice))
  {
    var s' := StepPayoutInitiate(s, w, p, attempt, code, choice);
    forall ref <- s'.transfers.Keys ensures TransferOk(s', ref) {
      if ref in s.transfers {
        assert TransferOk(s, ref);
      }
    }
  }

  lemma KeepsTransfers(serial: bool, s: State, a: Action)
    requires TransfersOk(s) && WorkersOk(s) && StateExtends(s, Apply(serial, s, a))
    ensures TransfersOk(Apply(serial, s, a))
  {
    var s' := Apply(serial, s, a);
    if a.Advance? && a.w in s.workers && s.workers[a.w].pc.PayoutInitiate? {
      var pc := s.workers[a.w].pc;
      assert WorkerOk(s, s.workers[a.w]);
      InitiateKeepsTransfers(s, a.w, pc.p, pc.attempt, pc.code, a.choice);
    } else {
      TransfersOnlyMove(serial, s, a);
      forall ref <- s'.transfers.Keys ensures TransferOk(s', ref) {
        TransferSurvives(s, s', ref);
      }
    }
  }

  lemma TransferSurvives(s: State, s': State, ref: Reference)
    requires StateExtends(s, s') && ref in s.transfers && ref in s'.transfers && TransferOk(s, ref)
    requires s'.transfers[ref].amountKobo == s.transfers[ref].amountKobo
    requires s'.transfers[ref].status == Delivered ==> s.transfers[ref].status == Delivered || ref in s'.everDelivered
    ensures TransferOk(s', ref)
  {
  }

  /** Outside initiation no transfer appears, and none changes its amount or where it goes. */
  lemma TransfersOnlyMove(serial: bool, s: State, a: Action)
    requires !(a.Advance? && a.w in s.workers && s.workers[a.w].pc.PayoutInitiate?)
    ensures var s' := Apply(serial, s, a);
            && s'.transfers.Keys == s.transfers.Keys
            && forall ref <- s.transfers.Keys ::
                 && s'.transfers[ref].amountKobo == s.transfers[ref].amountKobo
                 && s'.transfers[ref].to == s.transfers[ref].to
                 && MayBecome(s.transfers[ref].status, s'.transfers[ref].status)
                 && (s'.transfers[ref].status == Delivered ==>
                       s.transfers[ref].status == Delivered || ref in s'.everDelivered)
  {
    if a.Advance? && a.w in s.workers {
      LeavesTransfers(s, a.w, a.choice);
    }
  }

  lemma LeavesTransfers(s: State, w: nat, choice: Choice)
    requires w in s.workers && !s.workers[w].pc.PayoutInitiate?
    ensures Step(s, w, choice).transfers == s.transfers
  {
    if !s.workers[w].pc.PayoutRecipient? {
      LeavesProviders(s, w, choice);
    }
  }

  /** What one step may do to an existing payout row p: its reference moves only with a claim, and it enters
      SUCCESS only by markSucceeded's commit for the reference it carries. */
  predicate RowStep(s: State, w: nat, s': State, p: nat)
    requires w in s.workers && HasPayout(s, p)
  {
    && HasPayout(s', p)
    && var row, row', pc := s.books.payouts[p], s'.books.payouts[p], s.workers[w].pc;
    && (row'.attempts != row.attempts || row'.transferReference != row.transferReference ==>
          pc.PayoutClaim? && pc.p == p && CanClaim(s.books, p, pc.seen.attempts)
          && row'.attempts == row.attempts + 1 && row'.transferReference == Some(Reference(p, row'.attempts)))
    && (row.status != PayoutStatus.SUCCESS && row'.status == PayoutStatus.SUCCESS ==>
          pc.MarkCommit? && pc.p == p && row.transferReference == Some(pc.ref))
  }

  lemma WriteRowStep(s: State, w: nat, choice: Choice, p: nat)
    requires w in s.workers && HasPayout(s, p) && WritesPayout(s.workers[w].pc)
    ensures RowStep(s, w, Step(s, w, choice), p)
    ensures |Step(s, w, choice).books.payouts| == |s.books.payouts|
    ensures Step(s, w, choice).books.payments == s.books.payments
  {
  }

  lemma PostRowStep(s: State, w: nat, choice: Choice, p: nat)
    requires w in s.workers && HasPayout(s, p) && Posts(s.workers[w].pc)
    ensures RowStep(s, w, Step(s, w, choice), p)
    ensures Step(s, w, choice).claims == s.claims
  {
  }

  lemma StepRow(s: State, w: nat, choice: Choice, p: nat)
    requires w in s.workers && HasPayout(s, p)
    ensures RowStep(s, w, Step(s, w, choice), p)
  {
    if WritesPayout(s.workers[w].pc) {
      WriteRowStep(s, w, choice, p);
    } else if Posts(s.workers[w].pc) {
      PostRowStep(s, w, choice, p);
    } else {
      Quiet(s, w, choice);
    }
  }

  /** Outside worker steps no payout row changes its reference or enters SUCCESS, and none appears. */
  lemma OutsideSteps(serial: bool, s: State, a: Action)
    requires !(a.Advance? && a.w in s.workers)
    ensures var s' := Apply(serial, s, a);
            && s'.claims == s.claims && |s'.books.payouts| == |s.books.payouts|
            && forall p | 0 <= p < |s.books.payouts| ::
                 && s'.books.payouts[p].transferReference == s.books.payouts[p].transferReference
                 && s'.books.payouts[p].attempts == s.books.payouts[p].attempts
                 && (s'.books.payouts[p].status == PayoutStatus.SUCCESS <==>
                       s.books.payouts[p].status == PayoutStatus.SUCCESS)
  {
  }

  /** Only settlement's commit adds rows, and they start QUEUED. */
  lemma NewRowsAreQueued(serial: bool, s: State, a: Action, p: nat)
    requires |s.books.payouts| <= p < |Apply(serial, s, a).books.payouts|
    ensures Apply(serial, s, a).books.payouts[p].status == QUEUED
    ensures Apply(serial, s, a).books.payouts[p].attempts == 0
    ensures Apply(serial, s, a).claims == s.claims
  {
    if !(a.Advance? && a.w in s.workers) {
      OutsideSteps(serial, s, a);
    } else if WritesPayout(s.workers[a.w].pc) {
      WriteLength(s, a.w, a.choice);
    } else if Posts(s.workers[a.w].pc) {
      PostedRowsAreQueued(s, a.w, a.choice, p);
    } else {
      Quiet(s, a.w, a.choice);
    }
  }

  lemma WriteLength(s: State, w: nat, choice: Choice)
    requires w in s.workers && WritesPayout(s.workers[w].pc)
    ensures |Step(s, w, choice).books.payouts| == |s.books.payouts|
  {
  }

  lemma PostedRowsAreQueued(s: State, w: nat, choice: Choice, p: nat)
    requires w in s.workers && Posts(s.workers[w].pc)
    requires |s.books.payouts| <= p < |Step(s, w, choice).books.payouts|
    ensures Step(s, w, choice).books.payouts[p].status == QUEUED
    ensures Step(s, w, choice).books.payouts[p].attempts == 0
    ensures Step(s, w, choice).claims == s.claims
  {
    var pc := s.workers[w].pc;
    if pc.SettleCommit? {
      assert Step(s, w, choice).books.payouts[p] == NewPayout(Obligations(pc.entries)[p - |s.books.payouts|], pc.t);
    }
  }

  lemma KeepsSuccess(serial: bool, s: State, a: Action)
    requires SuccessOk(s) && WorkersOk(s) && StateExtends(s, Apply(serial, s, a))
    ensures SuccessOk(Apply(serial, s, a))
  {
    var s' := Apply(serial, s, a);
    forall p | 0 <= p < |s'.books.payouts| && s'.books.payouts[p].status == PayoutStatus.SUCCESS
      ensures s'.books.payouts[p].transferReference.Some?
              && s'.books.payouts[p].transferReference.value in s'.everDelivered
    {
      if p >= |s.books.payouts| {
        NewRowsAreQueued(serial, s, a, p);
      } else if a.Advance? && a.w in s.workers {
        StepRow(s, a.w, a.choice, p);
        assert WorkerOk(s, s.workers[a.w]);
        if s.workers[a.w].pc.PayoutClaim? {
          ClaimLeavesOpen(s, a.w, a.choice, p);
        }
      } else {
        OutsideSteps(serial, s, a);
      }
    }
  }

  lemma ClaimLeavesOpen(s: State, w: nat, choice: Choice, p: nat)
    requires w in s.workers && HasPayout(s, p) && s.workers[w].pc.PayoutClaim?
    ensures var s' := Step(s, w, choice);
            && HasPayout(s', p)
            && (s'.books.payouts[p].status == PayoutStatus.SUCCESS ==> s'.books.payouts[p] == s.books.payouts[p])
  {
  }

  /** The only way into SUCCESS is settlement's commit. */
  lemma OnlyCommitSettles(serial: bool, s: State, a: Action, t: nat)
    requires t < |s.books.payments| && s.books.payments[t].status != PaymentStatus.SUCCESS
    requires IsSettled(Apply(serial, s, a).books, t) && WorkersOk(s)
    ensures a.Advance? && a.w in s.workers && s.workers[a.w].pc.SettleCommit? && s.workers[a.w].pc.t == t
  {
    if a.Advance? && a.w in s.workers {
      assert WorkerOk(s, s.workers[a.w]);
      if Posts(s.workers[a.w].pc) {
        OnlyCommitPosts(s, a.w, a.choice, t);
      } else {
        LeavesPayments(s, a.w, a.choice);
      }
    }
  }

  lemma OnlyCommitPosts(s: State, w: nat, choice: Choice, t: nat)
    requires w in s.workers && WorkerOk(s, s.workers[w]) && Posts(s.workers[w].pc)
    requires t < |s.books.payments| && s.books.payments[t].status != PaymentStatus.SUCCESS
    requires IsSettled(Step(s, w, choice).books, t)
    ensures s.workers[w].pc.SettleCommit? && s.workers[w].pc.t == t
  {
  }

  lemma LeavesPayments(s: State, w: nat, choice: Choice)
    requires w in s.workers && !Posts(s.workers[w].pc)
    ensures Step(s, w, choice).books.payments == s.books.payments
  {
    if !WritesPayout(s.workers[w].pc) {
      Quiet(s, w, choice);
    }
  }

  lemma KeepsCharges(serial: bool, s: State, a: Action)
    requires ChargesOk(s) && WorkersOk(s) && StateExtends(s, Apply(serial, s, a))
    ensures ChargesOk(Apply(serial, s, a))
  {
    var s' := Apply(serial, s, a);
    ChargesParallel(serial, s, a);
    forall t | 0 <= t < |s'.charges| && IsSettled(s'.books, t)
      ensures ChargeMatches(s'.charges[t], s'.books.payments[t])
    {
      SettledWasPaid(serial, s, a, t);
      StillMatches(s, s', t);
    }
  }

  lemma StillMatches(s: State, s': State, t: nat)
    requires StateExtends(s, s') && t < |s.charges| && t < |s.books.payments|
    requires ChargeMatches(s.charges[t], s.books.payments[t])
    ensures ChargeMatches(s'.charges[t], s'.books.payments[t])
  {
  }

  lemma SettledWasPaid(serial: bool, s: State, a: Action, t: nat)
    requires WorkersOk(s) && StateExtends(s, Apply(serial, s, a))
    requires ChargesOk(s) && t < |s.charges| && IsSettled(Apply(serial, s, a).books, t)
    ensures ChargeMatches(s.charges[t], s.books.payments[t])
  {
    if !IsSettled(s.books, t) {
      OnlyCommitSettles(serial, s, a, t);
      assert WorkerOk(s, s.workers[a.w]);
    }
  }

  lemma ChargesParallel(serial: bool, s: State, a: Action)
    requires |s.charges| == |s.books.payments|
    ensures var s' := Apply(serial, s, a);
            && |s'.charges| == |s'.books.payments|
            && |s'.books.payments| <= |s.books.payments| + 1
            && (forall t | |s.charges| <= t < |s'.charges| :: !IsSettled(s'.books, t))
  {
    if a.Advance? && a.w in s.workers {
      StepAddsNoPayment(s, a.w, a.choice);
    }
  }

  lemma StepAddsNoPayment(s: State, w: nat, choice: Choice)
    requires w in s.workers
    ensures var s' := Step(s, w, choice);
            |s'.books.payments| == |s.books.payments| && s'.charges == s.charges
  {
    if !AsksForTransfer(s.workers[w].pc) {
      LeavesProviders(s, w, choice);
    }
    if !Posts(s.workers[w].pc) {
      LeavesPayments(s, w, choice);
    }
  }

  /** A claim takes the next attempt number of its payout, and only of its payout. */
  lemma ClaimTakesNext(s: State, w: nat, choice: Choice, p: nat)
    requires w in s.workers && HasPayout(s, p) && s.workers[w].pc.PayoutClaim?
    ensures var s' := Step(s, w, choice); var q := s.workers[w].pc.p;
            && HasPayout(s', p)
            && if HasPayout(s, q) && CanClaim(s.books, q, s.workers[w].pc.seen.attempts)
               then s'.claims == s.claims + [Claim(w, q, s.books.payouts[q].attempts + 1)]
                    && s'.books.payouts[p].attempts == s.books.payouts[p].attempts + if p == q then 1 else 0
               else s'.claims == s.claims && s'.books.payouts[p].attempts == s.books.payouts[p].attempts
  {
  }

  lemma OtherWritesClaimNothing(s: State, w: nat, choice: Choice)
    requires w in s.workers && WritesPayout(s.workers[w].pc) && !s.workers[w].pc.PayoutClaim?
    ensures Step(s, w, choice).claims == s.claims
  {
  }

  lemma KeepsClaimsOf(serial: bool, s: State, a: Action, p: nat)
    requires HasPayout(s, p) && ClaimsFor(s.claims, p) == UpTo(s.books.payouts[p].attempts)
    ensures var s' := Apply(serial, s, a);
            HasPayout(s', p) && ClaimsFor(s'.claims, p) == UpTo(s'.books.payouts[p].attempts)
  {
    if !(a.Advance? && a.w in s.workers) {
      OutsideSteps(serial, s, a);
    } else {
      StepKeepsClaimsOf(s, a.w, a.choice, p);
    }
  }

  lemma NextClaim(claims: seq<Claim>, c: Claim, p: nat, n: nat)
    requires ClaimsFor(claims, p) == UpTo(n) && (c.payout == p ==> c.attempt == n + 1)
    ensures ClaimsFor(claims + [c], p) == UpTo(if c.payout == p then n + 1 else n)
  {
    assert (claims + [c])[..|claims|] == claims;
  }

  lemma StepKeepsClaimsOf(s: State, w: nat, choice: Choice, p: nat)
    requires w in s.workers && HasPayout(s, p) && ClaimsFor(s.claims, p) == UpTo(s.books.payouts[p].attempts)
    ensures var s' := Step(s, w, choice);
            HasPayout(s', p) && ClaimsFor(s'.claims, p) == UpTo(s'.books.payouts[p].attempts)
  {
    if s.workers[w].pc.PayoutClaim? {
      var q := s.workers[w].pc.p;
      ClaimTakesNext(s, w, choice, p);
      if HasPayout(s, q) {
        NextClaim(s.claims, Claim(w, q, s.books.payouts[q].attempts + 1), p, s.books.payouts[p].attempts);
      }
    } else {
      StepRow(s, w, choice, p);
      StepClaimsNothing(s, w, choice, p);
    }
  }

  lemma StepClaimsNothing(s: State, w: nat, choice: Choice, p: nat)
    requires w in s.workers && HasPayout(s, p) && !s.workers[w].pc.PayoutClaim?
    ensures Step(s, w, choice).claims == s.claims
  {
    if WritesPayout(s.workers[w].pc) {
      OtherWritesClaimNothing(s, w, choice);
    } else if Posts(s.workers[w].pc) {
      PostRowStep(s, w, choice, p);
    } else {
      Quiet(s, w, choice);
    }
  }

  /** A payout that does not exist yet has not been claimed. */
  lemma NoClaimWithoutRow(serial: bool, s: State, a: Action, p: nat)
    requires !HasPayout(s, p) && ClaimsFor(s.claims, p) == []
    ensures var s' := Apply(serial, s, a);
            ClaimsFor(s'.claims, p) == UpTo(if HasPayout(s', p) then s'.books.payouts[p].attempts else 0)
  {
    if HasPayout(Apply(serial, s, a), p) {
      NewRowsAreQueued(serial, s, a, p);
    } else if a.Advance? && a.w in s.workers && s.workers[a.w].pc.PayoutClaim? && HasPayout(s, s.workers[a.w].pc.p) {
      ClaimTakesNext(s, a.w, a.choice, s.workers[a.w].pc.p);
    } else {
      OtherwiseNoClaim(serial, s, a);
    }
  }

  lemma OtherwiseNoClaim(serial: bool, s: State, a: Action)
    requires !(a.Advance? && a.w in s.workers && s.workers[a.w].pc.PayoutClaim? && HasPayout(s, s.workers[a.w].pc.p))
    ensures Apply(serial, s, a).claims == s.claims
  {
  }

  lemma KeepsClaims(serial: bool, s: State, a: Action)
    requires ClaimsOk(s)
    ensures ClaimsOk(Apply(serial, s, a))
  {
    forall p: nat
      ensures var s' := Apply(serial, s, a);
              ClaimsFor(s'.claims, p) == UpTo(if HasPayout(s', p) then s'.books.payouts[p].attempts else 0)
    {
      assert ClaimsFor(s.claims, p) == UpTo(if HasPayout(s, p) then s.books.payouts[p].attempts else 0);
      if HasPayout(s, p) {
        KeepsClaimsOf(serial, s, a, p);
      } else {
        NoClaimWithoutRow(serial, s, a, p);
      }
    }
  }

  // ---------------------------------------------------------------- every reachable state

  lemma Keeps(serial: bool, s: State, a: Action)
    requires Inv(s)
    ensures Inv(Apply(serial, s, a))
  {
    KeepsBooks(serial, s, a);
    Grows(serial, s, a);
    KeepsWorkers(serial, s, a);
    KeepsTransfers(serial, s, a);
    KeepsSuccess(serial, s, a);
    KeepsCharges(serial, s, a);
    KeepsClaims(serial, s, a);
  }

  lemma InitialInv()
    ensures Inv(INITIAL)
  {
    assert Rows([]) == [];
    assert forall a: Account :: Net([], a) == 0;
  }

  lemma {:induction false} Reachable(serial: bool, s: State, actions: seq<Action>)
    requires Inv(s)
    ensures Inv(Run(serial, s, actions))
  {
    if |actions| > 0 {
      Reachable(serial, s, actions[..|actions| - 1]);
      Keeps(serial, Run(serial, s, actions[..|actions| - 1]), actions[|actions| - 1]);
    }
  }
}
