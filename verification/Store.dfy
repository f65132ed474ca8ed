/** The database and the two providers as the services see them: one method per query, conditional update,
    transaction or provider call, each a single step of the protocol. Between two of them anything may happen. */
module Store {
  import opened Wrappers
  import opened Ledger
  import opened Tables
  import opened Protocol
  import opened Safety
  import Guarantees
  import Payees
  import Onboarding
  import OnboardingCalls
  import Destinations

  const ANY := Choice(Hold, InFlight, "", None)

  function VerdictOf(d: Destinations.Destination): Verdict {
    match d
    case SendTo(recipientName, bankCode, accountNumber, _) =>
      Send(Payee(recipientName, BankAccount(accountNumber, bankCode)))
    case HoldBack => Hold
    case NeedsReview(reason) => Review(reason)
  }

  /** What a run is told to pay is what the bank was last asked about and the owner accepted since. */
  lemma EntertainerVerdict(e: Onboarding.Entertainer, h: Onboarding.History, id: string,
                           others: map<string, Onboarding.Entertainer>, venues: map<string, Onboarding.Venue>)
    requires OnboardingCalls.KycSafe(e, h) && id != ""
    ensures var verdict := VerdictOf(Destinations.ResolveDestination(Account(EntertainerPayable, Some(id)),
                                                                     others[id := e], venues));
            && (verdict.Send? ==>
                  h.resolvedPair == Some((verdict.payee.account.accountNumber, verdict.payee.account.bankCode))
                  && h.acceptedName.Some? && verdict.payee.name == e.legalName)
            && (verdict.Hold? <==> Onboarding.NextStep(e) != Onboarding.DONE)
  {
    Destinations.SafeEntertainerGate(e, h, id, others, venues);
  }

  lemma VenueVerdict(v: Onboarding.Venue, h: Onboarding.History, id: string, others: map<string, Onboarding.Venue>,
                     entertainers: map<string, Onboarding.Entertainer>)
    requires OnboardingCalls.VenueSafe(v, h) && id != ""
    ensures var verdict := VerdictOf(Destinations.ResolveDestination(Account(VenuePayable, Some(id)), entertainers,
                                                                     others[id := v]));
            && (verdict.Send? ==>
                  h.resolvedPair == Some((verdict.payee.account.accountNumber, verdict.payee.account.bankCode))
                  && h.acceptedName.Some? && h.answer == Some(verdict.payee.name))
            && (verdict.Hold? <==> Onboarding.VenueNextStep(v) != Onboarding.DONE)
  {
    Destinations.SafeVenueGate(v, h, id, others, entertainers);
  }

  /** The payout row a worker is about to touch. */
  function PayoutOf(pc: Pc): Option<nat> {
    match pc
    case PayoutHold(p, _) => Some(p)
    case PayoutClaim(p, _, _) => Some(p)
    case PayoutRecipientSave(p, _, _) => Some(p)
    case PayoutInitiate(p, _, _) => Some(p)
    case EventFail(p, _, _, _, _) => Some(p)
    case EventReverse(p, _, _, _, _) => Some(p)
    case MarkRead(p, _) => Some(p)
    case MarkCommit(p, _, _) => Some(p)
    case FlagWrite(p) => Some(p)
    case ReviewWrite(p, _) => Some(p)
    case _ => None
  }

  function PaymentOf(pc: Pc): Option<nat> {
    match pc
    case SettleVerify(t, _) => Some(t)
    case SettleMove(t, _, _) => Some(t)
    case SettleRule(t, _) => Some(t)
    case SettleCommit(t, _) => Some(t)
    case _ => None
  }

  /** The rows a worker is about to touch exist, and are the ones it quotes. */
  lemma {:induction false} RowsExist(serial: bool, actions: seq<Action>, w: nat)
    requires w in Run(serial, INITIAL, actions).workers
    ensures var s := Run(serial, INITIAL, actions); var pc := s.workers[w].pc;
            && (PayoutOf(pc).Some? ==> PayoutOf(pc).value < |s.books.payouts|)
            && (PaymentOf(pc).Some? ==> PaymentOf(pc).value < |s.books.payments| == |s.charges|)
            && (pc.PayoutInitiate? ==> pc.code in s.recipients)
            && (pc.SettleVerify? || pc.SettleRule? ==> SameQuote(pc.quoted, s.books.payments[pc.t]))
  {
    Guarantees.AlwaysInv(serial, actions);
    var s := Run(serial, INITIAL, actions);
    assert WorkerOk(s, s.workers[w]);
  }

  /** The amount and account of a payout are what they were when it was read. */
  lemma ObligationStays(serial: bool, older: seq<Action>, newer: seq<Action>, p: nat)
    requires older <= newer && p < |Run(serial, INITIAL, older).books.payouts|
    ensures var b, c := Run(serial, INITIAL, older).books, Run(serial, INITIAL, newer).books;
            p < |c.payouts| && SameObligation(b.payouts[p], c.payouts[p])
  {
    Guarantees.RunExtends(serial, older, newer);
  }

  lemma {:induction false} DeliveredStays(serial: bool, older: seq<Action>, newer: seq<Action>)
    requires older <= newer
    ensures Run(serial, INITIAL, older).everDelivered <= Run(serial, INITIAL, newer).everDelivered
  {
    Guarantees.RunExtends(serial, older, newer);
  }

  class Database {
    /** Whether the queue runs at most one job per payout at a time. */
    ghost const serial: bool
    /** Whether nobody else acts while a call is under way. */
    ghost const alone: bool

    var rules: seq<Split>
    var payments: seq<Payment>
    var payouts: seq<Payout>
    var journal: seq<Posting>
    var charges: seq<Charge>
    var recipients: map<string, BankAccount>
    var transfers: map<Reference, Transfer>
    var entertainers: map<string, Onboarding.Entertainer>
    var venues: map<string, Onboarding.Venue>
    /** The payout jobs waiting or running, by job id. */
    var queue: set<nat>
    /** The payouts whose queueing threw, in order. */
    ghost var refused: seq<nat>

    ghost var everDelivered: set<Reference>
    ghost var claims: seq<Claim>
    ghost var workers: map<nat, Worker>
    /** Everything that happened. */
    ghost var actions: seq<Action>
    /** The runs an exception ended. */
    ghost var brokenOff: set<nat>

    function Contents(): Books
      reads this
    {
      Books(rules, payments, payouts, journal)
    }

    ghost function Snapshot(): State
      reads this
    {
      State(Contents(), charges, recipients, transfers, everDelivered, claims, workers)
    }

    /** The tables and the providers are in the state the protocol reaches by these actions. (The quantifier keeps
        the run folded in proofs about callers.) */
    ghost predicate Valid()
      reads this
    {
      forall start: State | start == INITIAL :: Snapshot() == Run(serial, start, actions)
    }

    /** A worker that has not run yet. */
    ghost predicate Free(w: nat)
      reads this
    {
      w !in workers && w !in brokenOff
    }

    ghost predicate At(w: nat, pc: Pc)
      reads this
    {
      w in workers && workers[w].pc == pc
    }

    /** At pc, and since that many actions, an exception ended the run of worker w. */
    ghost predicate BrokeOff(since: nat, w: nat, pc: Pc)
      reads this
    {
      exists i | since <= i < |actions| :: actions[i] == Crash(w) && Payees.AtMoment(serial, actions, i, w, pc)
    }

    /** At pc, and since that many actions, worker w took its step. */
    ghost predicate Stepped(since: nat, w: nat, pc: Pc)
      reads this
    {
      exists i | since <= i < |actions| ::
        actions[i].Advance? && actions[i].w == w && Payees.AtMoment(serial, actions, i, w, pc)
    }

    constructor (ghost serial: bool, ghost alone: bool)
      ensures Valid() && this.serial == serial && this.alone == alone && actions == [] && queue == {} && refused == []
    {
      this.serial, this.alone := serial, alone;
      rules, payments, payouts, journal, charges, recipients, transfers := [], [], [], [], [], map[], map[];
      entertainers, venues, queue := map[], map[], {};
      everDelivered, claims, workers, actions, brokenOff, refused := {}, [], map[], [], {}, [];
    }

    /** Add an action whose effect on the tables and providers has just been written. */
    ghost method Record(before: State, a: Action)
      requires before == Run(serial, INITIAL, actions)
      requires var after := Apply(serial, before, a);
               Contents() == after.books && charges == after.charges && recipients == after.recipients
               && transfers == after.transfers
      modifies this`everDelivered, this`claims, this`workers, this`actions
      ensures Valid() && Snapshot() == Apply(serial, before, a) && actions == old(actions) + [a]
    {
      var after := Apply(serial, before, a);
      everDelivered, claims, workers, actions := after.everDelivered, after.claims, after.workers, actions + [a];
      assert actions[..|actions| - 1] == old(actions);
    }

    /** This action leads from here to that state. (The quantifier keeps the step folded.) */
    ghost predicate LeadsTo(a: Action, after: State)
      reads this
    {
      forall before: State | before == Snapshot() :: Apply(serial, before, a) == after
    }

    /** Add an action that changes neither tables nor providers. */
    ghost method RecordRead(a: Action, after: State)
      requires Valid() && LeadsTo(a, after)
      requires Contents() == after.books && charges == after.charges && recipients == after.recipients
               && transfers == after.transfers
      modifies this`everDelivered, this`claims, this`workers, this`actions
      ensures Valid() && Snapshot() == after && actions == old(actions) + [a]
    {
      Record(Snapshot(), a);
    }

    /** Whatever else happens before this worker's next step: any number of actions of others. */
    method Elsewhere(ghost w: nat)
      requires Valid()
      modifies this
      ensures Valid() && old(actions) <= actions && old(refused) <= refused
      ensures (w in workers <==> w in old(workers)) && (w in workers ==> workers[w] == old(workers)[w])
      ensures w in brokenOff <==> w in old(brokenOff)
      ensures alone ==> unchanged(this)
    {
    }

    /** The same when no worker is under way. */
    method Meanwhile()
      requires Valid()
      modifies this
      ensures Valid() && old(actions) <= actions && old(refused) <= refused
      ensures alone ==> unchanged(this)
    {
    }

    // ------------------------------------------------------------ runs begin and break off

    ghost method BeginPayout(w: nat, p: nat)
      requires Valid() && w !in workers && (serial ==> !Serves(Snapshot(), p))
      modifies this`everDelivered, this`claims, this`workers, this`actions
      ensures Valid() && At(w, PayoutRead(p)) && actions == old(actions) + [StartPayout(w, p)]
    {
      Record(Snapshot(), StartPayout(w, p));
    }

    ghost method BeginEvent(w: nat, ref: Reference, event: TransferEvent, given: Option<string>)
      requires Valid() && w !in workers && (event == TransferSucceeded ==> ref in everDelivered)
      modifies this`everDelivered, this`claims, this`workers, this`actions
      ensures Valid() && At(w, EventRead(ref, event, given))
              && actions == old(actions) + [StartEvent(w, ref, event, given)]
    {
      Record(Snapshot(), StartEvent(w, ref, event, given));
    }

    ghost method BeginSettle(w: nat, t: nat)
      requires Valid() && w !in workers
      modifies this`everDelivered, this`claims, this`workers, this`actions
      ensures Valid() && At(w, SettleRead(t)) && actions == old(actions) + [StartSettle(w, t)]
    {
      Record(Snapshot(), StartSettle(w, t));
    }

    /** An exception leaves the run where it is, for good. */
    ghost method BreakOff(w: nat)
      requires Valid() && w in workers
      modifies this`everDelivered, this`claims, this`workers, this`actions, this`brokenOff
      ensures Valid() && w !in workers && brokenOff == old(brokenOff) + {w} && actions == old(actions) + [Crash(w)]
      ensures BrokeOff(|old(actions)|, w, old(workers)[w].pc)
    {
      ghost var history, pc := actions, workers[w].pc;
      WasAt(w, pc);
      Record(Snapshot(), Crash(w));
      brokenOff := brokenOff + {w};
      assert actions[..|history|] == history[..|history|];
      assert Payees.AtMoment(serial, actions, |history|, w, pc);
    }

    lemma WasAt(w: nat, pc: Pc)
      requires Valid() && At(w, pc)
      ensures Payees.AtMoment(serial, actions, |actions|, w, pc)
    {
      assert actions[..|actions|] == actions;
    }

    lemma CodeExists(w: nat, p: nat, attempt: nat, code: string)
      requires Valid() && At(w, PayoutInitiate(p, attempt, code))
      ensures code in recipients
    {
      RowsExist(serial, actions, w);
    }

    /** Adding a job that is already waiting or running is a no-op; the queue may be unreachable, and a call that threw
        may still have added the job. */
    method Enqueue(p: nat) returns (threw: bool)
      modifies this`queue, this`refused
      ensures queue == old(queue) + {p} || (threw && queue == old(queue))
      ensures refused == old(refused) + if threw then [p] else []
      ensures forall since: nat | since <= |old(refused)| :: IsAnnounced(p, since)
      ensures forall q: nat, since: nat | old(IsAnnounced(q, since)) :: IsAnnounced(q, since)
    {
      threw := *;
      var added: bool := *;
      ghost var before := refused;
      if !threw || added {
        queue := queue + {p};
      }
      if threw {
        refused := refused + [p];
        assert refused[|before|] == p;
      }
      assert forall i | 0 <= i < |before| :: before[i] == refused[i];
    }

    /** It waits on the queue, or, after that many others, putting it there threw. */
    ghost predicate IsAnnounced(p: nat, since: nat)
      reads this
    {
      p in queue || exists i | since <= i < |refused| :: refused[i] == p
    }

    // ------------------------------------------------------------ processPayout

    method FindPayout(ghost w: nat, p: nat) returns (row: Option<Payout>)
      requires Valid() && At(w, PayoutRead(p))
      modifies this`everDelivered, this`claims, this`workers, this`actions
      ensures Valid() && actions == old(actions) + [Advance(w, ANY)]
      ensures row == if p < |payouts| then Some(payouts[p]) else None
      ensures if row.None? || !IsOpen(row.value.status) then w !in workers
              else At(w, if row.value.transferReference.Some? then PayoutVerify(p, row.value)
                      else PayoutResolve(p, row.value))
    {
      row := if p < |payouts| then Some(payouts[p]) else None;
      Record(Snapshot(), Advance(w, ANY));
    }

    /** A status of None is the provider's "not found". */
    method VerifyTransfer(ghost w: nat, p: nat, seen: Payout) returns (threw: bool, status: Option<TransferStatus>)
      requires Valid() && At(w, PayoutVerify(p, seen)) && seen.transferReference.Some?
      modifies this`everDelivered, this`claims, this`workers, this`actions, this`brokenOff
      ensures Valid() && actions == old(actions) + [if threw then Crash(w) else Advance(w, ANY)]
      ensures threw ==> w !in workers && BrokeOff(|old(actions)|, w, PayoutVerify(p, seen))
      ensures !threw ==> brokenOff == old(brokenOff) && Verified(w, p, seen.transferReference.value, seen, status)
      ensures status == TransferStatusOf(seen.transferReference.value)
    {
      threw := *;
      if threw {
        status := TransferStatusOf(seen.transferReference.value);
        BreakOff(w);
      } else {
        status := ReportTransfer(w, p, seen);
      }
    }

    function TransferStatusOf(ref: Reference): Option<TransferStatus>
      reads this
    {
      if ref in transfers then Some(transfers[ref].status) else None
    }

    /** How a run goes on once it knows the status behind the old reference. */
    ghost predicate Verified(w: nat, p: nat, ref: Reference, seen: Payout, status: Option<TransferStatus>)
      reads this
    {
      && (status == Some(Delivered) ==> At(w, MarkRead(p, ref)))
      && (status == Some(InFlight) ==> w !in workers)
      && (status == Some(AwaitingAction) ==> At(w, FlagWrite(p)))
      && (status in {None, Some(Bounced), Some(Returned)} ==> At(w, PayoutResolve(p, seen)))
    }

    method ReportTransfer(ghost w: nat, p: nat, seen: Payout) returns (status: Option<TransferStatus>)
      requires Valid() && At(w, PayoutVerify(p, seen)) && seen.transferReference.Some?
      modifies this`everDelivered, this`claims, this`workers, this`actions
      ensures Valid() && actions == old(actions) + [Advance(w, ANY)]
      ensures status == TransferStatusOf(seen.transferReference.value)
      ensures Verified(w, p, seen.transferReference.value, seen, status)
    {
      status := TransferStatusOf(seen.transferReference.value);
      ghost var after := AfterVerifying(w, p, seen);
      RecordRead(Advance(w, ANY), after);
    }

    lemma AfterVerifying(w: nat, p: nat, seen: Payout) returns (after: State)
      requires At(w, PayoutVerify(p, seen)) && seen.transferReference.Some?
      ensures LeadsTo(Advance(w, ANY), after)
      ensures after == Snapshot().(workers := after.workers)
      ensures match TransferStatusOf(seen.transferReference.value)
              case Some(InFlight) => w !in after.workers
              case Some(Delivered) =>
                w in after.workers && after.workers[w].pc == MarkRead(p, seen.transferReference.value)
              case Some(AwaitingAction) => w in after.workers && after.workers[w].pc == FlagWrite(p)
              case _ => w in after.workers && after.workers[w].pc == PayoutResolve(p, seen)
    {
      after := Apply(serial, Snapshot(), Advance(w, ANY));
    }

    method ResolveDestination(ghost w: nat, p: nat, seen: Payout) returns (d: Destinations.Destination)
      requires Valid() && At(w, PayoutResolve(p, seen))
      modifies this`everDelivered, this`claims, this`workers, this`actions
      ensures d == Destinations.ResolveDestination(seen.account, entertainers, venues)
      ensures Valid() && actions == old(actions) + [Advance(w, ANY.(verdict := VerdictOf(d)))]
      ensures d.SendTo? ==> At(w, PayoutClaim(p, seen, VerdictOf(d).payee))
      ensures d.NeedsReview? ==> At(w, ReviewWrite(p, BadDestination(d.reason)))
      ensures d.HoldBack? ==> if seen.status == QUEUED then w !in workers else At(w, PayoutHold(p, seen.status))
    {
      d := Destinations.ResolveDestination(seen.account, entertainers, venues);
      Record(Snapshot(), Advance(w, ANY.(verdict := VerdictOf(d))));
    }

    method HoldPayout(ghost w: nat, p: nat, was: PayoutStatus)
      requires Valid() && At(w, PayoutHold(p, was))
      modifies this`payouts, this`everDelivered, this`claims, this`workers, this`actions
      ensures p < |old(payouts)| && Contents() == Tables.HoldPayout(old(Contents()), p, was)
      ensures Valid() && w !in workers && actions == old(actions) + [Advance(w, ANY)]
    {
      ghost var before := Snapshot();
      RowsExist(serial, actions, w);
      if payouts[p].status == was {
        payouts := payouts[p := payouts[p].(status := QUEUED)];
      }
      Record(before, Advance(w, ANY));
    }

    method ClaimPayout(ghost w: nat, p: nat, seen: Payout, ghost payee: Payee) returns (claimed: bool)
      requires Valid() && At(w, PayoutClaim(p, seen, payee))
      modifies this`payouts, this`everDelivered, this`claims, this`workers, this`actions
      ensures p < |old(payouts)| && claimed == CanClaim(old(Contents()), p, seen.attempts)
      ensures Contents() == Tables.ClaimPayout(old(Contents()), p, seen.attempts)
      ensures Valid() && actions == old(actions) + [Advance(w, ANY)]
      ensures if claimed then At(w, PayoutRecipient(p, seen.attempts + 1, payee)) else w !in workers
    {
      ghost var before := Snapshot();
      RowsExist(serial, actions, w);
      claimed := IsOpen(payouts[p].status) && payouts[p].attempts == seen.attempts;
      if claimed {
        var attempt := seen.attempts + 1;
        payouts := payouts[p := payouts[p].(status := PROCESSING, attempts := attempt,
                                            transferReference := Some(Reference(p, attempt)), failureReason := None)];
      }
      Record(before, Advance(w, ANY));
    }

    /** From now on the code stands for this account. A code the provider has given out for another one is no answer. */
    method CreateRecipient(ghost w: nat, ghost p: nat, ghost attempt: nat, payee: Payee)
      returns (threw: bool, code: string)
      requires Valid() && At(w, PayoutRecipient(p, attempt, payee))
      modifies this`recipients, this`everDelivered, this`claims, this`workers, this`actions, this`brokenOff
      ensures Valid() && actions == old(actions) + [if threw then Crash(w) else Advance(w, ANY.(recipient := code))]
      ensures recipients == if threw then old(recipients) else old(recipients)[code := payee.account]
      ensures !threw ==> CodeFits(old(recipients), code, payee.account)
      ensures !threw ==> brokenOff == old(brokenOff) && At(w, PayoutRecipientSave(p, attempt, code))
      ensures threw ==> w !in workers && BrokeOff(|old(actions)|, w, PayoutRecipient(p, attempt, payee))
    {
      threw, code := *, *;
      threw := threw || !CodeFits(recipients, code, payee.account);
      if threw {
        BreakOff(w);
      } else {
        ghost var before := Snapshot();
        recipients := recipients[code := payee.account];
        Record(before, Advance(w, ANY.(recipient := code)));
      }
    }

    method SaveRecipient(ghost w: nat, p: nat, ghost attempt: nat, code: string)
      requires Valid() && At(w, PayoutRecipientSave(p, attempt, code))
      modifies this`payouts, this`everDelivered, this`claims, this`workers, this`actions
      ensures p < |old(payouts)| && Contents() == Tables.SaveRecipient(old(Contents()), p, code)
      ensures Valid() && At(w, PayoutInitiate(p, attempt, code)) && actions == old(actions) + [Advance(w, ANY)]
    {
      ghost var before := Snapshot();
      RowsExist(serial, actions, w);
      payouts := payouts[p := payouts[p].(recipientCode := Some(code))];
      Record(before, Advance(w, ANY));
    }

    /** The provider sends the amount to the account the code stands for; of a reference it already knows it only
        reports the transfer it has. */
    method ApplyTransfer(ghost w: nat, p: nat, attempt: nat, amountKobo: int, code: string)
      returns (landed: Transfer, given: Option<string>)
      requires Valid() && At(w, PayoutInitiate(p, attempt, code))
      requires p < |payouts| && amountKobo == payouts[p].amountKobo
      modifies this`transfers, this`everDelivered, this`claims, this`workers, this`actions
      ensures Valid() && |actions| == |old(actions)| + 1 && old(actions) <= actions
      ensures actions[|actions| - 1].Advance? && actions[|actions| - 1].w == w
      ensures transfers == old(transfers)[Reference(p, attempt) := landed] && code in recipients
      ensures if Reference(p, attempt) in old(transfers) then landed == old(transfers)[Reference(p, attempt)]
              else landed.amountKobo == amountKobo && landed.to == recipients[code]
      ensures landed.status == InFlight <==> w !in workers
      ensures landed.status == Delivered ==> At(w, MarkRead(p, Reference(p, attempt)))
      ensures landed.status == AwaitingAction ==> At(w, FlagWrite(p))
      ensures landed.status in {Bounced, Returned} ==> At(w, EventRead(Reference(p, attempt), TransferFailed, given))
    {
      ghost var before := Snapshot();
      CodeExists(w, p, attempt, code);
      var lands: TransferStatus := *;
      given := *;
      landed := Land(Reference(p, attempt), Transfer(lands, amountKobo, recipients[code]));
      Record(before, Advance(w, ANY.(lands := lands, given := given)));
    }

    method Land(ref: Reference, transfer: Transfer) returns (landed: Transfer)
      modifies this`transfers
      ensures landed == if ref in old(transfers) then old(transfers)[ref] else transfer
      ensures transfers == old(transfers)[ref := landed]
    {
      landed := if ref in transfers then transfers[ref] else transfer;
      transfers := transfers[ref := landed];
    }

    lemma HasStepped(history: seq<Action>, w: nat, pc: Pc)
      requires |actions| == |history| + 1 && history <= actions
      requires actions[|history|].Advance? && actions[|history|].w == w
      requires Payees.AtMoment(serial, history, |history|, w, pc)
      ensures Stepped(|history|, w, pc)
    {
      assert actions[..|history|] == history[..|history|];
      assert Payees.AtMoment(serial, actions, |history|, w, pc);
    }

    /** The provider applies a transfer before it answers, before it throws, or never: reached says which. */
    method InitiateTransfer(ghost w: nat, p: nat, attempt: nat, amountKobo: int, code: string)
      returns (threw: bool, landed: Transfer, given: Option<string>, ghost reached: bool)
      requires Valid() && At(w, PayoutInitiate(p, attempt, code))
      requires p < |payouts| && amountKobo == payouts[p].amountKobo
      modifies this`transfers, this`everDelivered, this`claims, this`workers, this`actions, this`brokenOff
      ensures Valid() && old(actions) <= actions
      ensures transfers == if reached then old(transfers)[Reference(p, attempt) := landed] else old(transfers)
      ensures reached ==>
                && code in recipients && Stepped(|old(actions)|, w, PayoutInitiate(p, attempt, code))
                && if Reference(p, attempt) in old(transfers) then landed == old(transfers)[Reference(p, attempt)]
                   else landed.amountKobo == amountKobo && landed.to == recipients[code]
      ensures threw ==> w !in workers
      ensures !reached ==> threw && BrokeOff(|old(actions)|, w, PayoutInitiate(p, attempt, code))
      ensures !threw ==>
                && reached && brokenOff == old(brokenOff) && |actions| == |old(actions)| + 1
                && (landed.status == InFlight <==> w !in workers)
                && (landed.status == Delivered ==> At(w, MarkRead(p, Reference(p, attempt))))
                && (landed.status == AwaitingAction ==> At(w, FlagWrite(p)))
                && (landed.status in {Bounced, Returned} ==>
                      At(w, EventRead(Reference(p, attempt), TransferFailed, given)))
    {
      var lost: bool := *;
      if lost {
        threw, landed, given, reached := true, *, *, false;
        BreakOff(w);
        return;
      }
      reached := true;
      ghost var history := actions;
      WasAt(w, PayoutInitiate(p, attempt, code));
      landed, given := ApplyTransfer(w, p, attempt, amountKobo, code);
      HasStepped(history, w, PayoutInitiate(p, attempt, code));
      threw := *;
      if threw && landed.status != InFlight {
        ghost var sent := actions;
        BreakOff(w);
        StaysStepped(|old(actions)|, sent, w, PayoutInitiate(p, attempt, code));
      }
    }

    ghost predicate SteppedBy(since: nat, until: seq<Action>, w: nat, pc: Pc)
      reads this
    {
      exists i | since <= i < |until| ::
        until[i].Advance? && until[i].w == w && Payees.AtMoment(serial, until, i, w, pc)
    }

    lemma StaysStepped(since: nat, until: seq<Action>, w: nat, pc: Pc)
      requires until <= actions && SteppedBy(since, until, w, pc)
      ensures Stepped(since, w, pc)
    {
      var i :| since <= i < |until| && until[i].Advance? && until[i].w == w && Payees.AtMoment(serial, until, i, w, pc);
      assert actions[..i] == until[..i];
      assert Payees.AtMoment(serial, actions, i, w, pc);
    }

    // ------------------------------------------------------------ handleTransferEvent

    method FindByReference(ghost w: nat, ref: Reference, event: TransferEvent, given: Option<string>)
      returns (found: Option<nat>)
      requires Valid() && At(w, EventRead(ref, event, given))
      modifies this`everDelivered, this`claims, this`workers, this`actions
      ensures Valid() && actions == old(actions) + [Advance(w, ANY)]
      ensures found == Protocol.FindByReference(payouts, ref)
      ensures found.Some? ==> found.value < |payouts| && payouts[found.value].transferReference == Some(ref)
      ensures found.None? ==> w !in workers
      ensures found.Some? ==>
                var p, row := found.value, payouts[found.value];
                var entries := PayoutReversalEntries(row.account, row.amountKobo);
                if event == TransferSucceeded then At(w, MarkRead(p, ref))
                else if event == TransferReversed && row.status == PayoutStatus.SUCCESS
                then if entries.Ok? then At(w, EventReverse(p, ref, entries.value, given, row.attempts))
                    else w !in workers
                else if row.status != PayoutStatus.SUCCESS then At(w, EventFail(p, ref, event, given, row.attempts))
                else w !in workers
    {
      Found(payouts, ref);
      found := Protocol.FindByReference(payouts, ref);
      Record(Snapshot(), Advance(w, ANY));
    }

    method FailAttempt(ghost w: nat, p: nat, ref: Reference, event: TransferEvent, given: Option<string>,
                       ghost seenAttempts: nat)
      requires Valid() && At(w, EventFail(p, ref, event, given, seenAttempts))
      modifies this`payouts, this`everDelivered, this`claims, this`workers, this`actions
      ensures p < |old(payouts)| && Contents() == Tables.FailAttempt(old(Contents()), p, ref, event, given)
      ensures Valid() && actions == old(actions) + [Advance(w, ANY)]
      ensures if seenAttempts >= MAX_AUTOMATIC_TRANSFER_ATTEMPTS
              then At(w, ReviewWrite(p, TooManyAttempts(event, seenAttempts, given))) else w !in workers
    {
      ghost var before := Snapshot();
      RowsExist(serial, actions, w);
      WriteFailure(p, ref, event, given);
      Record(before, Advance(w, ANY));
    }

    method WriteFailure(p: nat, ref: Reference, event: TransferEvent, given: Option<string>)
      requires p < |payouts|
      modifies this`payouts
      ensures Contents() == Tables.FailAttempt(old(Contents()), p, ref, event, given)
    {
      if payouts[p].transferReference == Some(ref) && payouts[p].status != PayoutStatus.SUCCESS {
        payouts := payouts[p := payouts[p].(status := RETRYING, failureReason := Some(ReasonOr(given, event)))];
      }
    }

    /** Out of SUCCESS and the compensating entries, in one transaction. */
    method ReversePayout(ghost w: nat, p: nat, ref: Reference, entries: seq<EntrySpec>, given: Option<string>,
                         ghost seenAttempts: nat)
      returns (reversed: bool)
      requires Valid() && At(w, EventReverse(p, ref, entries, given, seenAttempts))
      modifies this`payouts, this`journal, this`everDelivered, this`claims, this`workers, this`actions
      ensures p < |old(payouts)| && reversed == CanReverse(old(Contents()), p, ref)
      ensures Contents() == Tables.ReversePayout(old(Contents()), p, ref, entries, given)
      ensures Valid() && actions == old(actions) + [Advance(w, ANY)]
      ensures if reversed && seenAttempts >= MAX_AUTOMATIC_TRANSFER_ATTEMPTS
              then At(w, ReviewWrite(p, TooManyAttempts(TransferReversed, seenAttempts, given))) else w !in workers
    {
      ghost var before := Snapshot();
      RowsExist(serial, actions, w);
      reversed := WriteReversal(p, ref, entries, given);
      Record(before, Advance(w, ANY));
    }

    method WriteReversal(p: nat, ref: Reference, entries: seq<EntrySpec>, given: Option<string>)
      returns (reversed: bool)
      requires p < |payouts|
      modifies this`payouts, this`journal
      ensures reversed == CanReverse(old(Contents()), p, ref)
      ensures Contents() == Tables.ReversePayout(old(Contents()), p, ref, entries, given)
    {
      reversed := payouts[p].status == PayoutStatus.SUCCESS && payouts[p].transferReference == Some(ref);
      if reversed {
        journal, payouts := journal + [Posting(payouts[p].transactionId, entries)],
            payouts[p := payouts[p].(status := RETRYING, failureReason := Some(ReasonOr(given, TransferReversed)))];
      }
    }

    // ------------------------------------------------------------ markSucceeded, flagForOperator, markForReview

    method FindPayoutToMark(ghost w: nat, p: nat, ghost ref: Reference) returns (row: Payout)
      requires Valid() && At(w, MarkRead(p, ref))
      modifies this`everDelivered, this`claims, this`workers, this`actions
      ensures p < |payouts| && row == payouts[p]
      ensures Valid() && actions == old(actions) + [Advance(w, ANY)]
      ensures var entries := PayoutEntries(row.account, row.amountKobo);
              if entries.Ok? then At(w, MarkCommit(p, ref, entries.value)) else w !in workers
    {
      RowsExist(serial, actions, w);
      row := payouts[p];
      Record(Snapshot(), Advance(w, ANY));
    }

    /** SUCCESS and the ledger debit, in one transaction. */
    method SucceedPayout(ghost w: nat, p: nat, ref: Reference, entries: seq<EntrySpec>) returns (posted: bool)
      requires Valid() && At(w, MarkCommit(p, ref, entries))
      modifies this`payouts, this`journal, this`everDelivered, this`claims, this`workers, this`actions
      ensures p < |old(payouts)| && posted == CanSucceed(old(Contents()), p, ref)
      ensures Contents() == Tables.SucceedPayout(old(Contents()), p, ref, entries)
      ensures Valid() && w !in workers && actions == old(actions) + [Advance(w, ANY)]
    {
      ghost var before := Snapshot();
      RowsExist(serial, actions, w);
      posted := payouts[p].transferReference == Some(ref) && payouts[p].status != PayoutStatus.SUCCESS;
      if posted {
        journal, payouts := journal + [Posting(payouts[p].transactionId, entries)],
            payouts[p := payouts[p].(status := PayoutStatus.SUCCESS, failureReason := None)];
      }
      Record(before, Advance(w, ANY));
    }

    method FlagPayout(ghost w: nat, p: nat)
      requires Valid() && At(w, FlagWrite(p))
      modifies this`payouts, this`everDelivered, this`claims, this`workers, this`actions
      ensures p < |old(payouts)| && Contents() == Tables.FlagPayout(old(Contents()), p)
      ensures Valid() && w !in workers && actions == old(actions) + [Advance(w, ANY)]
    {
      ghost var before := Snapshot();
      RowsExist(serial, actions, w);
      payouts := payouts[p := payouts[p].(failureReason := Some(ActionRequired))];
      Record(before, Advance(w, ANY));
    }

    method ReviewPayout(ghost w: nat, p: nat, cause: ReviewCause)
      requires Valid() && At(w, ReviewWrite(p, cause))
      modifies this`payouts, this`everDelivered, this`claims, this`workers, this`actions
      ensures p < |old(payouts)| && Contents() == Tables.ReviewPayout(old(Contents()), p, cause)
      ensures Valid() && w !in workers && actions == old(actions) + [Advance(w, ANY)]
    {
      ghost var before := Snapshot();
      RowsExist(serial, actions, w);
      if payouts[p].status != PayoutStatus.SUCCESS {
        payouts := payouts[p := payouts[p].(status := PayoutStatus.FAILED, failureReason := Some(ManualReview(cause)))];
      }
      Record(before, Advance(w, ANY));
    }

    /** The conditional update of retryPayout. */
    method ReopenPayout(p: nat) returns (reopened: bool)
      requires Valid()
      modifies this`payouts, this`everDelivered, this`claims, this`workers, this`actions
      ensures Valid() && actions == old(actions) + [Retry(p)]
      ensures reopened <==> p < |old(payouts)| && old(payouts)[p].status == PayoutStatus.FAILED
      ensures Contents() == if reopened then Tables.RetryPayout(old(Contents()), p) else old(Contents())
    {
      ghost var before := Snapshot();
      reopened := p < |payouts| && payouts[p].status == PayoutStatus.FAILED;
      if reopened {
        payouts := payouts[p := payouts[p].(status := RETRYING, failureReason := None)];
      }
      Record(before, Retry(p));
    }

    // ------------------------------------------------------------ settle

    method FindPayment(ghost w: nat, t: nat) returns (row: Option<Payment>)
      requires Valid() && At(w, SettleRead(t))
      modifies this`everDelivered, this`claims, this`workers, this`actions
      ensures Valid() && actions == old(actions) + [Advance(w, ANY)]
      ensures row == if t < |payments| then Some(payments[t]) else None
      ensures if row.Some? && IsSettleable(row.value.status) then At(w, SettleVerify(t, row.value)) else w !in workers
    {
      row := if t < |payments| then Some(payments[t]) else None;
      Record(Snapshot(), Advance(w, ANY));
    }

    method VerifyPayment(ghost w: nat, t: nat, ghost quoted: Payment) returns (threw: bool, charge: Charge)
      requires Valid() && At(w, SettleVerify(t, quoted))
      modifies this`everDelivered, this`claims, this`workers, this`actions, this`brokenOff
      ensures t < |charges| && charge == charges[t] && t < |payments| && SameQuote(quoted, payments[t])
      ensures Valid() && actions == old(actions) + [if threw then Crash(w) else Advance(w, ANY)]
      ensures threw ==> w !in workers && BrokeOff(|old(actions)|, w, SettleVerify(t, quoted))
      ensures !threw ==> brokenOff == old(brokenOff)
      ensures !threw ==>
                match charge
                case ChargeFailed => At(w, SettleMove(t, {CREATED, PENDING}, PaymentStatus.FAILED))
                case Unpaid => At(w, SettleMove(t, {CREATED}, PENDING))
                case Paid(_, _) => if ChargeMatches(charge, quoted) then At(w, SettleRule(t, quoted)) else w !in workers
    {
      RowsExist(serial, actions, w);
      threw := *;
      charge := charges[t];
      if threw {
        BreakOff(w);
      } else {
        Record(Snapshot(), Advance(w, ANY));
      }
    }

    method MovePayment(ghost w: nat, t: nat, from: set<PaymentStatus>, to: PaymentStatus)
      requires Valid() && At(w, SettleMove(t, from, to))
      modifies this`payments, this`everDelivered, this`claims, this`workers, this`actions
      ensures t < |old(payments)| && Contents() == Tables.MovePayment(old(Contents()), t, from, to)
      ensures Valid() && w !in workers && actions == old(actions) + [Advance(w, ANY)]
    {
      ghost var before := Snapshot();
      RowsExist(serial, actions, w);
      if payments[t].status in from {
        payments := payments[t := payments[t].(status := to)];
      }
      Record(before, Advance(w, ANY));
    }

    method FindRule(ghost w: nat, ghost t: nat, quoted: Payment) returns (rule: Option<Split>)
      requires Valid() && At(w, SettleRule(t, quoted)) && quoted.splitRuleId.Some?
      modifies this`everDelivered, this`claims, this`workers, this`actions
      ensures Valid() && actions == old(actions) + [Advance(w, ANY)]
      ensures rule == if quoted.splitRuleId.value < |rules| then Some(rules[quoted.splitRuleId.value]) else None
      ensures var lines := SplitLines(Contents(), quoted);
              if lines.Ok? then At(w, SettleCommit(t, lines.value)) else w !in workers
      ensures t < |payments| && SameQuote(quoted, payments[t])
    {
      RowsExist(serial, actions, w);
      rule := if quoted.splitRuleId.value < |rules| then Some(rules[quoted.splitRuleId.value]) else None;
      Record(Snapshot(), Advance(w, ANY));
    }

    /** Claim the payment, post the entries and create one payout per payable credit, in one transaction. */
    method SettlePayment(ghost w: nat, t: nat, entries: seq<EntrySpec>) returns (payoutIds: Option<seq<nat>>)
      requires Valid() && At(w, SettleCommit(t, entries))
      modifies this`payments, this`journal, this`payouts, this`everDelivered, this`claims, this`workers, this`actions
      ensures t < |old(payments)| && Contents() == Tables.SettlePayment(old(Contents()), t, entries)
      ensures payoutIds.Some? <==> IsSettleable(old(payments)[t].status)
      ensures payoutIds.Some? ==> payoutIds.value == seq(|Obligations(entries)|, i => |old(payouts)| + i)
      ensures Valid() && w !in workers && actions == old(actions) + [Advance(w, ANY)]
    {
      ghost var before := Snapshot();
      RowsExist(serial, actions, w);
      if !IsSettleable(payments[t].status) {
        Record(before, Advance(w, ANY));
        return None;
      }
      var ids := PostSettlement(t, entries);
      Record(before, Advance(w, ANY));
      return Some(ids);
    }

    method PostSettlement(t: nat, entries: seq<EntrySpec>) returns (ids: seq<nat>)
      requires t < |payments| && IsSettleable(payments[t].status)
      modifies this`payments, this`journal, this`payouts
      ensures Contents() == Tables.SettlePayment(old(Contents()), t, entries)
      ensures ids == seq(|Obligations(entries)|, i => |old(payouts)| + i)
    {
      payments, journal := payments[t := payments[t].(status := PaymentStatus.SUCCESS)],
          journal + [Posting(t, entries)];
      ids := CreatePayouts(t, entries);
    }

    method CreatePayouts(t: nat, entries: seq<EntrySpec>) returns (ids: seq<nat>)
      modifies this`payouts
      ensures payouts == old(payouts) + NewPayouts(Obligations(entries), t)
      ensures ids == seq(|Obligations(entries)|, i => |old(payouts)| + i)
    {
      ids := [];
      for i := 0 to |entries|
        invariant payouts == old(payouts) + NewPayouts(Obligations(entries[..i]), t)
        invariant ids == seq(|Obligations(entries[..i])|, j => |old(payouts)| + j)
      {
        var entry := entries[i];
        assert entries[..i + 1][..i] == entries[..i];
        if entry.direction == Credit && IsPayable(entry.account.kind) {
          ids := ids + [|payouts|];
          payouts := payouts + [Payout(entry.account, t, entry.amountKobo, QUEUED, 0, None, None, None)];
        }
      }
      assert entries[..|entries|] == entries;
    }

    // ------------------------------------------------------------ initializePayment

    /** The last thing that happened since these actions was storing this payment as the newest row. */
    ghost predicate Stored(since: seq<Action>, stores: Action, row: Payment)
      reads this
    {
      && since < actions && actions[|actions| - 1] == stores
      && |payments| > 0 && payments[|payments| - 1] == row
    }

    /** The row as it stands once the provider has answered: CREATED, or FAILED when no checkout could be opened. */
    method CreatePayment(terms: PaymentForPosting, splitRuleId: nat, checkoutOpened: bool) returns (t: nat)
      requires Valid()
      modifies this`payments, this`charges, this`everDelivered, this`claims, this`workers, this`actions
      ensures Valid() && actions == old(actions) + [NewPayment(terms, Some(splitRuleId), checkoutOpened)]
      ensures t == |old(payments)|
      ensures payments == old(payments)
                          + [Payment(terms, Some(splitRuleId), if checkoutOpened then CREATED
                                     else PaymentStatus.FAILED)]
    {
      ghost var before := Snapshot();
      t := |payments|;
      payments := payments + [Payment(terms, Some(splitRuleId), if checkoutOpened then CREATED
                                      else PaymentStatus.FAILED)];
      charges := charges + [Unpaid];
      Record(before, NewPayment(terms, Some(splitRuleId), checkoutOpened));
    }
  }
}
