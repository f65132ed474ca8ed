/** No obligation is paid twice: with serial runs per payout, at most one of its transfers is ever live. */
module SingleTransfer {
  import opened Wrappers
  import opened Tables
  import opened Protocol
  import opened Safety

  // ---------------------------------------------------------------- the invariant

  predicate LiveAt(s: State, ref: Reference) {
    ref in s.transfers && IsLive(s.transfers[ref].status)
  }

  /** A transfer that has paid, or still may pay, is always the current reference of its payout. */
  ghost predicate LiveIsCurrent(s: State) {
    forall ref <- s.transfers.Keys :: LiveAt(s, ref) ==>
      HasPayout(s, ref.payout) && ref.attempt == s.books.payouts[ref.payout].attempts
  }

  predicate InPayoutRun(pc: Pc) {
    || pc.PayoutRead? || pc.PayoutVerify? || pc.PayoutResolve? || pc.PayoutHold? || pc.PayoutClaim?
    || pc.PayoutRecipient? || pc.PayoutRecipientSave? || pc.PayoutInitiate?
  }

  /** The queue runs one processPayout job per payout at a time. */
  ghost predicate OneRunEach(s: State) {
    && (forall v, w | v in s.workers && w in s.workers && s.workers[v].serves.Some? &&
          s.workers[v].serves == s.workers[w].serves :: v == w)
    && (forall v <- s.workers.Keys | InPayoutRun(s.workers[v].pc) :: s.workers[v].serves == Some(s.workers[v].pc.p))
  }

  /** Before a claim the previous attempt is known dead; between claim and initiation nothing was sent yet. */
  predicate RunOk(s: State, pc: Pc) {
    match pc
    case PayoutVerify(p, seen) => HasPayout(s, p) && seen.attempts == s.books.payouts[p].attempts
    case PayoutResolve(p, seen) =>
      HasPayout(s, p) && seen.attempts == s.books.payouts[p].attempts && !LiveAt(s, Reference(p, seen.attempts))
    case PayoutClaim(p, seen, _) =>
      HasPayout(s, p) && seen.attempts == s.books.payouts[p].attempts && !LiveAt(s, Reference(p, seen.attempts))
    case PayoutRecipient(p, attempt, _) =>
      HasPayout(s, p) && attempt == s.books.payouts[p].attempts && Reference(p, attempt) !in s.transfers
    case PayoutRecipientSave(p, attempt, _) =>
      HasPayout(s, p) && attempt == s.books.payouts[p].attempts && Reference(p, attempt) !in s.transfers
    case PayoutInitiate(p, attempt, _) =>
      HasPayout(s, p) && attempt == s.books.payouts[p].attempts && Reference(p, attempt) !in s.transfers
    case _ => true
  }

  ghost predicate RunsOk(s: State) { forall v <- s.workers.Keys :: RunOk(s, s.workers[v].pc) }

  ghost predicate SerialInv(s: State) {
    LiveIsCurrent(s) && OneRunEach(s) && RunsOk(s)
  }

  // ---------------------------------------------------------------- one run per payout

  lemma StepServes(s: State, w: nat, choice: Choice)
    requires w in s.workers && w in Step(s, w, choice).workers
    ensures var after := Step(s, w, choice).workers[w];
            && after.serves == s.workers[w].serves
            && (InPayoutRun(after.pc) ==> InPayoutRun(s.workers[w].pc) && after.pc.p == s.workers[w].pc.p)
  {
    if IsEventStep(s.workers[w].pc) {
      EventStaysOutside(s, w, choice);
    } else if !InPayoutRun(s.workers[w].pc) {
      StaysOutside(s, w, choice);
    }
  }

  predicate IsEventStep(pc: Pc) {
    pc.EventRead? || pc.EventFail? || pc.EventReverse?
  }

  lemma EventStaysOutside(s: State, w: nat, choice: Choice)
    requires w in s.workers && w in Step(s, w, choice).workers && IsEventStep(s.workers[w].pc)
    ensures Step(s, w, choice).workers[w].serves == s.workers[w].serves
    ensures !InPayoutRun(Step(s, w, choice).workers[w].pc)
  {
  }

  lemma StaysOutside(s: State, w: nat, choice: Choice)
    requires w in s.workers && w in Step(s, w, choice).workers
    requires !InPayoutRun(s.workers[w].pc) && !IsEventStep(s.workers[w].pc)
    ensures Step(s, w, choice).workers[w].serves == s.workers[w].serves
    ensures !InPayoutRun(Step(s, w, choice).workers[w].pc)
  {
  }

  /** A worker keeps what it serves; a new one serves a payout nobody else serves, or none. */
  lemma ServesAfter(s: State, a: Action, v: nat)
    requires v in Apply(true, s, a).workers
    requires v in s.workers && InPayoutRun(s.workers[v].pc) ==> s.workers[v].serves == Some(s.workers[v].pc.p)
    ensures var after := Apply(true, s, a).workers[v];
            && (InPayoutRun(after.pc) ==> after.serves == Some(after.pc.p))
            && (v in s.workers ==> after.serves == s.workers[v].serves)
            && (v !in s.workers && after.serves.Some? ==> !Serves(s, after.serves.value))
  {
    if Steps(s, a, v) {
      StepServes(s, v, a.choice);
    } else if a.Advance? && a.w in s.workers {
      StepIsLocal(s, a.w, a.choice, v);
    }
  }

  lemma SpawnsOne(s: State, a: Action, v: nat, w: nat)
    requires v in Apply(true, s, a).workers && w in Apply(true, s, a).workers
    requires v !in s.workers && w !in s.workers
    ensures v == w
  {
    if a.Advance? && a.w in s.workers && a.w != v {
      StepIsLocal(s, a.w, a.choice, v);
    }
  }

  lemma KeepsOneRunEach(s: State, a: Action)
    requires OneRunEach(s)
    ensures OneRunEach(Apply(true, s, a))
  {
    var s' := Apply(true, s, a);
    forall v <- s'.workers.Keys | InPayoutRun(s'.workers[v].pc)
      ensures s'.workers[v].serves == Some(s'.workers[v].pc.p) {
      ServesAfter(s, a, v);
    }
    forall v, w | v in s'.workers && w in s'.workers && s'.workers[v].serves.Some?
                  && s'.workers[v].serves == s'.workers[w].serves
      ensures v == w
    {
      ServesAfter(s, a, v);
      ServesAfter(s, a, w);
      if v !in s.workers && w !in s.workers {
        SpawnsOne(s, a, v, w);
      }
    }
  }

  // ---------------------------------------------------------------- what others may do meanwhile

  /** The payout's attempt count and the set of its sent attempts stand still, and no dead transfer revives. */
  ghost predicate Undisturbed(s: State, s': State, p: nat) {
    && (HasPayout(s, p) ==> HasPayout(s', p) && s'.books.payouts[p].attempts == s.books.payouts[p].attempts)
    && (forall k: nat :: Reference(p, k) in s'.transfers <==> Reference(p, k) in s.transfers)
    && (forall k: nat :: LiveAt(s', Reference(p, k)) ==> LiveAt(s, Reference(p, k)))
  }

  lemma RunSurvives(s: State, s': State, pc: Pc)
    requires RunOk(s, pc) && InPayoutRun(pc) && Undisturbed(s, s', pc.p)
    ensures RunOk(s', pc)
  {
  }

  /** Only the worker serving a payout claims it or initiates its transfers. */
  lemma OthersDoNotDisturb(s: State, a: Action, p: nat)
    requires a.Advance? && a.w in s.workers ==>
               !(s.workers[a.w].pc.PayoutClaim? && s.workers[a.w].pc.p == p)
               && !(s.workers[a.w].pc.PayoutInitiate? && s.workers[a.w].pc.p == p)
    ensures Undisturbed(s, Apply(true, s, a), p)
  {
    var s' := Apply(true, s, a);
    if HasPayout(s, p) {
      if a.Advance? && a.w in s.workers {
        StepRow(s, a.w, a.choice, p);
      } else {
        OutsideSteps(true, s, a);
      }
    }
    if a.Advance? && a.w in s.workers && s.workers[a.w].pc.PayoutInitiate? {
      assert s'.transfers.Keys <= s.transfers.Keys + {Reference(s.workers[a.w].pc.p, s.workers[a.w].pc.attempt)};
    } else {
      TransfersOnlyMove(true, s, a);
    }
  }

  // ---------------------------------------------------------------- the stepping worker

  lemma OnlyClaimedIsSent(s: State, ref: Reference)
    requires TransfersOk(s)
    ensures ref in s.transfers ==> AttemptOk(s, ref.payout, ref.attempt)
  {
    if ref in s.transfers {
      assert TransferOk(s, ref);
    }
  }

  lemma OwnStep(s: State, w: nat, choice: Choice)
    requires PayoutsOk(s.books) && TransfersOk(s)
    requires w in s.workers && WorkerOk(s, s.workers[w])
    requires InPayoutRun(s.workers[w].pc) && RunOk(s, s.workers[w].pc)
    ensures var s' := Step(s, w, choice); w in s'.workers ==> RunOk(s', s'.workers[w].pc)
  {
    var pc := s.workers[w].pc;
    if pc.PayoutRead? && HasPayout(s, pc.p) {
      assert PayoutOk(s.books, pc.p);
      OnlyClaimedIsSent(s, Reference(pc.p, 0));
    } else if pc.PayoutClaim? {
      OnlyClaimedIsSent(s, Reference(pc.p, pc.seen.attempts + 1));
    }
  }

  lemma KeepsRunsOk(s: State, a: Action)
    requires Inv(s) && SerialInv(s)
    ensures RunsOk(Apply(true, s, a))
  {
    var s' := Apply(true, s, a);
    forall v <- s'.workers.Keys ensures RunOk(s', s'.workers[v].pc) {
      if Steps(s, a, v) {
        if InPayoutRun(s.workers[v].pc) {
          OwnStep(s, v, a.choice);
        } else {
          StepServes(s, v, a.choice);
        }
      } else {
        OtherRunOk(s, a, v);
      }
    }
  }

  lemma OtherRunOk(s: State, a: Action, v: nat)
    requires SerialInv(s) && v in Apply(true, s, a).workers && !Steps(s, a, v)
    ensures RunOk(Apply(true, s, a), Apply(true, s, a).workers[v].pc)
  {
    if a.Advance? && a.w in s.workers {
      StepIsLocal(s, a.w, a.choice, v);
    }
    if v in s.workers && InPayoutRun(s.workers[v].pc) {
      OthersDoNotDisturb(s, a, s.workers[v].pc.p);
      RunSurvives(s, Apply(true, s, a), s.workers[v].pc);
    }
  }

  // ---------------------------------------------------------------- live transfers

  lemma KeepsLiveIsCurrent(s: State, a: Action)
    requires Inv(s) && SerialInv(s)
    ensures LiveIsCurrent(Apply(true, s, a))
  {
    var s' := Apply(true, s, a);
    forall ref <- s'.transfers.Keys
      ensures LiveAt(s', ref) ==> HasPayout(s', ref.payout) && ref.attempt == s'.books.payouts[ref.payout].attempts
    {
      if a.Advance? && a.w in s.workers && s.workers[a.w].pc.PayoutInitiate? && s.workers[a.w].pc.p == ref.payout {
        assert RunOk(s, s.workers[a.w].pc);
        InitiateIsCurrent(s, a.w, a.choice, ref);
      } else if a.Advance? && a.w in s.workers && s.workers[a.w].pc.PayoutClaim? && s.workers[a.w].pc.p == ref.payout {
        assert RunOk(s, s.workers[a.w].pc);
        ClaimRevivesNothing(s, a.w, a.choice, ref);
      } else {
        OthersDoNotDisturb(s, a, ref.payout);
        assert LiveAt(s', ref) ==> LiveAt(s, ref);
      }
    }
  }

  lemma InitiateIsCurrent(s: State, w: nat, choice: Choice, ref: Reference)
    requires LiveIsCurrent(s) && w in s.workers && s.workers[w].pc.PayoutInitiate?
    requires RunOk(s, s.workers[w].pc) && s.workers[w].pc.p == ref.payout
    ensures var s' := Step(s, w, choice);
            LiveAt(s', ref) ==> HasPayout(s', ref.payout) && ref.attempt == s'.books.payouts[ref.payout].attempts
  {
    if ref.attempt != s.workers[w].pc.attempt {
      assert LiveAt(s, ref) ==> ref in s.transfers;
    }
  }

  /** A payout about to be claimed has no live transfer, and claiming makes none. */
  lemma ClaimRevivesNothing(s: State, w: nat, choice: Choice, ref: Reference)
    requires LiveIsCurrent(s) && w in s.workers && s.workers[w].pc.PayoutClaim? && RunOk(s, s.workers[w].pc)
    requires s.workers[w].pc.p == ref.payout
    ensures !LiveAt(Step(s, w, choice), ref)
  {
    assert LiveAt(s, ref) ==> ref in s.transfers;
  }

  lemma KeepsSerial(s: State, a: Action)
    requires Inv(s) && SerialInv(s)
    ensures SerialInv(Apply(true, s, a))
  {
    KeepsOneRunEach(s, a);
    KeepsRunsOk(s, a);
    KeepsLiveIsCurrent(s, a);
  }

  lemma {:induction false} ReachableSerial(actions: seq<Action>)
    ensures Inv(Run(true, INITIAL, actions)) && SerialInv(Run(true, INITIAL, actions))
  {
    if |actions| == 0 {
      InitialInv();
    } else {
      ReachableSerial(actions[..|actions| - 1]);
      Keeps(true, Run(true, INITIAL, actions[..|actions| - 1]), actions[|actions| - 1]);
      KeepsSerial(Run(true, INITIAL, actions[..|actions| - 1]), actions[|actions| - 1]);
    }
  }

  // ---------------------------------------------------------------- the guarantee

  /** Money moved for payout p by its first n attempts, still standing at the provider. */
  function DeliveredKobo(s: State, p: nat, n: nat): int {
    if n == 0 then 0
    else
      var ref := Reference(p, n);
      DeliveredKobo(s, p, n - 1)
      + if ref in s.transfers && s.transfers[ref].status == Delivered then s.transfers[ref].amountKobo else 0
  }

  lemma {:induction false} DeliveredBound(s: State, p: nat, n: nat)
    requires LiveIsCurrent(s) && TransfersOk(s) && HasPayout(s, p) && 0 < s.books.payouts[p].amountKobo
    ensures DeliveredKobo(s, p, n) <= if n >= s.books.payouts[p].attempts then s.books.payouts[p].amountKobo else 0
    ensures n < s.books.payouts[p].attempts ==> DeliveredKobo(s, p, n) <= 0
  {
    if n > 0 {
      DeliveredBound(s, p, n - 1);
      var ref := Reference(p, n);
      if ref in s.transfers && s.transfers[ref].status == Delivered {
        assert LiveAt(s, ref) && TransferOk(s, ref);
      }
    }
  }

  /** In every reachable state, at most one of a payout's references is pending, awaiting action or successful;
      it is the current one; and what has been delivered never exceeds the obligation. */
  lemma NoObligationIsPaidTwice(actions: seq<Action>, p: nat, j: nat, k: nat, n: nat)
    ensures var s := Run(true, INITIAL, actions);
            && (LiveAt(s, Reference(p, j)) && LiveAt(s, Reference(p, k)) ==> j == k)
            && (LiveAt(s, Reference(p, k)) ==>
                  HasPayout(s, p) && s.books.payouts[p].transferReference == Some(Reference(p, k))
                  && s.transfers[Reference(p, k)].amountKobo == s.books.payouts[p].amountKobo)
            && (HasPayout(s, p) ==> DeliveredKobo(s, p, n) <= s.books.payouts[p].amountKobo)
            && (!HasPayout(s, p) ==> Reference(p, k) !in s.transfers)
  {
    ReachableSerial(actions);
    var s := Run(true, INITIAL, actions);
    if HasPayout(s, p) {
      assert PayoutOk(s.books, p);
      DeliveredBound(s, p, n);
    }
    forall i: nat | Reference(p, i) in s.transfers ensures TransferOk(s, Reference(p, i)) {
    }
  }
}
