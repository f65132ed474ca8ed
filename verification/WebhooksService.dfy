/** WebhooksService and WebhookEventHandler. */
module WebhookServices {
  import opened Wrappers
  import opened Tables
  import opened Protocol
  import opened Store
  import opened Webhooks
  import opened Payments
  import opened PayoutOutcomes
  import Payouts

  datatype IngestResult = Queued | Duplicate | Unauthorized | BadRequest | Threw

  predicate UniqueIds(events: seq<WebhookEvent>) {
    forall i, j | 0 <= i < j < |events| :: events[i].externalEventId != events[j].externalEventId
  }

  /** A success event is sent only for a transfer that did succeed. */
  ghost predicate Truthful(body: EventBody, everDelivered: set<Reference>) {
    body.TransferNews? && body.event == TransferSucceeded ==> body.ref in everDelivered
  }

  ghost predicate AllTruthful(events: seq<WebhookEvent>, everDelivered: set<Reference>) {
    forall e <- events :: Truthful(e.body, everDelivered)
  }

  /** The webhook_events table and the webhook queue. */
  class Inbox {
    var events: seq<WebhookEvent>
    var jobs: set<nat>
    /** Jobs whose attempts are used up, kept for a week under their ids. */
    var retained: set<nat>
    /** How often adding a job has thrown. */
    ghost var refusals: nat

    constructor ()
      ensures events == [] && jobs == {} && retained == {}
    {
      events, jobs, retained, refusals := [], {}, {}, 0;
    }

    ghost predicate Valid(everDelivered: set<Reference>)
      reads this
    {
      UniqueIds(events) && AllTruthful(events, everDelivered)
    }

    /** Whatever other requests do meanwhile; events are never removed, and keep their ids and bodies. */
    method Elsewhere(ghost everDelivered: set<Reference>, ghost alone: bool)
      requires Valid(everDelivered)
      modifies this
      ensures Valid(everDelivered) && Extends(old(events))
      ensures alone ==> unchanged(this)
    {
    }

    predicate Extends(before: seq<WebhookEvent>)
      reads this
    {
      && |before| <= |events|
      && forall i | 0 <= i < |before| ::
           events[i].externalEventId == before[i].externalEventId && events[i].body == before[i].body
    }

    /** The unique index on the external id turns a second insert away. */
    method Create(id: string, body: EventBody) returns (created: Option<nat>)
      modifies this`events
      ensures created == if FindEvent(old(events), id).None? then Some(|old(events)|) else None
      ensures events == if created.Some? then old(events) + [WebhookEvent(id, body, Pending)] else old(events)
    {
      if FindEvent(events, id).Some? {
        return None;
      }
      created := Some(|events|);
      events := events + [WebhookEvent(id, body, Pending)];
    }

    method SetStatus(e: nat, status: ProcessingStatus)
      requires e < |events|
      modifies this`events
      ensures events == old(events)[e := old(events)[e].(status := status)]
    {
      events := events[e := events[e].(status := status)];
    }

    /** A job under an id the queue still knows is not added; a call that threw may have reached the queue. */
    method Add(e: nat) returns (threw: bool, ghost missed: bool)
      modifies this`jobs, this`refusals
      ensures jobs == old(jobs) + (if missed || e in retained then {} else {e})
      ensures (missed ==> threw) && refusals == old(refusals) + if threw then 1 else 0
    {
      threw := *;
      var reached: bool := *;
      missed := threw && !reached;
      if (!threw || reached) && e !in retained {
        jobs := jobs + {e};
      }
      if threw {
        refusals := refusals + 1;
      }
    }

    method Mark(e: nat, status: ProcessingStatus, ghost everDelivered: set<Reference>, ghost alone: bool)
      requires Valid(everDelivered) && e < |events|
      modifies this
      ensures Valid(everDelivered) && Extends(old(events)) && events[e].status == status
      ensures alone ==> && events == old(events)[e := old(events)[e].(status := status)]
                        && jobs == old(jobs) && retained == old(retained) && refusals == old(refusals)
    {
      Elsewhere(everDelivered, alone);
      SetStatus(e, status);
    }
  }

  class WebhookEventHandler {
    const db: Database
    const inbox: Inbox
    const settlement: PaymentSettlementService
    const payouts: Payouts.PayoutsService

    constructor (inbox: Inbox, settlement: PaymentSettlementService, payouts: Payouts.PayoutsService)
      ensures this.inbox == inbox && this.settlement == settlement && this.payouts == payouts && db == settlement.db
    {
      this.inbox, this.settlement, this.payouts, this.db := inbox, settlement, payouts, settlement.db;
    }

    ghost predicate Valid()
      reads db, inbox
    {
      settlement.db == db && payouts.db == db && db.Valid() && inbox.Valid(db.everDelivered)
    }

    function TheDesk(): Desk
      reads db, inbox
    {
      Desk(db.Contents(), inbox.events, inbox.jobs, inbox.retained)
    }

    /** What settling the payment of this body would find at the provider. */
    function ChargeFor(body: EventBody): Charge
      reads db
    {
      if body.ChargeSuccess? && body.t < |db.charges| then db.charges[body.t] else Unpaid
    }

    /** The call has started the run its event asks for: a settlement, a transfer event, or none. */
    ghost predicate Began(before: seq<Action>, w: nat, body: EventBody)
      reads db
    {
      match body
      case ChargeSuccess(t) => before + [StartSettle(w, t)] <= db.actions
      case TransferNews(ref, event) => before + [StartEvent(w, ref, event, None)] <= db.actions
      case _ => db.actions == before
    }

    /** The transfer event has had its effect, and threw only if a job could not be queued or nothing can be posted. */
    ghost predicate NewsHandled(b: Books, transfers: map<Reference, Transfer>, queue: set<nat>, refused: nat,
                                body: EventBody, threw: bool)
      requires body.TransferNews?
      reads db, payouts
    {
      payouts.db == db && exists queueing ::
        && payouts.Made(EventNow(b, transfers, body.ref, body.event, None, queueing), queue, threw)
        && (queueing.threw ==> refused < |db.refused|)
    }

    /** The run was broken off at the question what became of the charge. */
    ghost predicate WentDown(since: nat, w: nat)
      reads db
    {
      exists t, seen :: db.BrokeOff(since, w, SettleVerify(t, seen))
    }

    method Handle(ghost w: nat, e: nat) returns (threw: bool, ghost providerDown: bool)
      requires Valid() && db.Free(w)
      modifies db, inbox
      ensures Valid() && w !in db.workers && old(db.actions) <= db.actions && inbox.Extends(old(inbox.events))
      ensures providerDown ==> WentDown(|old(db.actions)|, w)
      ensures e >= |old(inbox.events)| || old(inbox.events)[e].status == Completed ==>
                unchanged(db) && unchanged(inbox) && !threw
      ensures e < |old(inbox.events)| && old(inbox.events)[e].status != Completed ==>
                && Began(old(db.actions), w, old(inbox.events)[e].body)
                && inbox.events[e].status in {Completed, Failed} && (threw ==> inbox.events[e].status == Failed)
                && (!old(inbox.events)[e].body.ChargeSuccess? ==> (threw <==> inbox.events[e].status == Failed))
                && (old(inbox.events)[e].body in {Unhandled, NoReference} ==> unchanged(db) && !threw)
      ensures db.alone ==> |inbox.events| == |old(inbox.events)|
      ensures db.alone && e < |old(inbox.events)| && old(inbox.events)[e].body.ChargeSuccess? ==>
                Handled(TheDesk(), threw)
                == HandleNow(old(TheDesk()), old(ChargeFor(inbox.events[e].body)), e, providerDown)
      ensures db.alone && e < |old(inbox.events)| && old(inbox.events)[e].status != Completed
              && old(inbox.events)[e].body.TransferNews? ==>
                && NewsHandled(old(db.Contents()), old(db.transfers), old(db.queue), |old(db.refused)|,
                               old(inbox.events)[e].body, threw)
                && inbox.jobs == old(inbox.jobs) && inbox.retained == old(inbox.retained)
    {
      providerDown := false;
      if e >= |inbox.events| {
        return false, false;
      }
      var event := inbox.events[e];
      if event.status == Completed {
        return false, false;
      }
      inbox.Mark(e, Processing, db.everDelivered, db.alone);
      var failed;
      failed, threw, providerDown := Dispatch(w, event.body);
      inbox.Mark(e, if failed then Failed else Completed, db.everDelivered, db.alone);
    }

    /** Route the event; threw is an error another attempt may get past. */
    method Dispatch(ghost w: nat, body: EventBody) returns (failed: bool, threw: bool, ghost providerDown: bool)
      requires settlement.db == db && payouts.db == db && db.Valid() && db.Free(w) && Truthful(body, db.everDelivered)
      modifies db
      ensures db.Valid() && w !in db.workers && old(db.actions) <= db.actions && (threw ==> failed)
      ensures old(db.everDelivered) <= db.everDelivered
      ensures Began(old(db.actions), w, body) && (providerDown ==> WentDown(|old(db.actions)|, w))
      ensures body.Unhandled? || body.NoReference? ==> unchanged(db) && !failed
      ensures body.TransferNews? ==> failed == threw
      ensures db.alone && body.ChargeSuccess? ==>
                var settled := SettleNow(old(db.Contents()), old(ChargeFor(body)), body.t, providerDown);
                && db.Contents() == settled.books && failed == settled.error.Some?
                && threw == (settled.error.Some? && settled.error != Some(IntegrityMismatch))
      ensures db.alone && body.TransferNews? ==>
                NewsHandled(old(db.Contents()), old(db.transfers), old(db.queue), |old(db.refused)|, body, threw)
    {
      failed, threw, providerDown := false, false, false;
      match body {
        case ChargeSuccess(t) =>
          failed, threw, providerDown := SettleCharge(w, t);
        case TransferNews(ref, news) =>
          threw := TakeNews(w, ref, news);
          failed := threw;
        case Unhandled =>
        case NoReference =>
      }
      DeliveredGrew(old(db.actions), old(db.everDelivered));
    }

    method SettleCharge(ghost w: nat, t: nat) returns (failed: bool, threw: bool, ghost providerDown: bool)
      requires settlement.db == db && db.Valid() && db.Free(w)
      modifies db
      ensures db.Valid() && w !in db.workers && old(db.actions) + [StartSettle(w, t)] <= db.actions
      ensures (threw ==> failed) && (providerDown ==> WentDown(|old(db.actions)|, w))
      ensures db.alone ==>
                var settled := SettleNow(old(db.Contents()), old(ChargeFor(ChargeSuccess(t))), t, providerDown);
                && db.Contents() == settled.books && failed == settled.error.Some?
                && threw == (settled.error.Some? && settled.error != Some(IntegrityMismatch))
    {
      var r := settlement.Settle(w, t);
      failed := r.Err?;
      threw := r.Err? && r.error != IntegrityMismatch;
      providerDown := r == Err(ProviderDown);
    }

    method TakeNews(ghost w: nat, ref: Reference, news: TransferEvent) returns (threw: bool)
      requires payouts.db == db && db.Valid() && db.Free(w) && (news == TransferSucceeded ==> ref in db.everDelivered)
      modifies db
      ensures db.Valid() && w !in db.workers && old(db.actions) + [StartEvent(w, ref, news, None)] <= db.actions
      ensures db.alone ==> NewsHandled(old(db.Contents()), old(db.transfers), old(db.queue), |old(db.refused)|,
                                       TransferNews(ref, news), threw)
    {
      db.BeginEvent(w, ref, news, None);
      db.Elsewhere(w);
      ghost var queueing;
      threw, queueing := payouts.HandleTransferEvent(w, ref, news, None);
    }

    /** What was delivered once stays so. */
    lemma {:induction false} DeliveredGrew(history: seq<Action>, everDelivered: set<Reference>)
      requires db.Valid() && history <= db.actions && Run(db.serial, INITIAL, history).everDelivered == everDelivered
      ensures everDelivered <= db.everDelivered
    {
      assert Run(db.serial, INITIAL, db.actions).everDelivered == db.everDelivered;
      DeliveredStays(db.serial, history, db.actions);
    }
  }

  class WebhooksService {
    const handler: WebhookEventHandler
    const inbox: Inbox
    const queueEnabled: bool

    constructor (handler: WebhookEventHandler, queueEnabled: bool)
      ensures this.handler == handler && inbox == handler.inbox && this.queueEnabled == queueEnabled
    {
      this.handler, this.queueEnabled, this.inbox := handler, queueEnabled, handler.inbox;
    }

    /** With a queue: the event is stored, as it is if it was there, and its job is added unless the event is completed,
        the queue retains the job's id, or the queue missed it. */
    ghost predicate IsQueued(events: seq<WebhookEvent>, jobs: set<nat>, retained: set<nat>, id: string, body: EventBody,
                             queueDown: bool)
      reads inbox
    {
      var found := FindEvent(events, id);
      var e := if found.Some? then found.value else |events|;
      var completed := found.Some? && events[found.value].status == Completed;
      && inbox.events == (if found.None? then events + [WebhookEvent(id, body, Pending)] else events)
      && inbox.jobs == jobs + (if completed || queueDown || e in retained then {} else {e})
          && inbox.retained == retained
    }

    /** What is left to handle: the stored body once there is one, nothing once it is completed. */
    function BodyToHandle(events: seq<WebhookEvent>, id: string, body: EventBody): Option<EventBody> {
      var found := FindEvent(events, id);
      if found.None? then Some(body)
      else if events[found.value].status == Completed then None
      else Some(events[found.value].body)
    }

    /** Without one: the run the event asks for has been started, unless the event was completed. */
    ghost predicate IsHandled(events: seq<WebhookEvent>, before: seq<Action>, w: nat, id: string, body: EventBody)
      reads handler, handler.db
    {
      match BodyToHandle(events, id, body)
      case None => handler.db.actions == before
      case Some(asked) => handler.Began(before, w, asked)
    }

    /** Nothing unsigned or malformed is stored; everything else is stored once and enqueued until completed. */
    method Ingest(ghost w: nat, signatureValid: bool, wellFormed: bool, id: string, body: EventBody)
      returns (r: IngestResult, ghost queueDown: bool, ghost providerDown: bool)
      requires inbox == handler.inbox && handler.Valid() && handler.db.Free(w)
      requires Truthful(body, handler.db.everDelivered)
      modifies inbox, handler.db
      ensures handler.Valid() && w !in handler.db.workers
      ensures !signatureValid ==> r == Unauthorized
      ensures signatureValid && !wellFormed ==> r == BadRequest
      ensures r in {Unauthorized, BadRequest} ==> unchanged(inbox) && unchanged(handler.db)
      ensures signatureValid && wellFormed ==>
                && r in {Queued, Duplicate, Threw}
                && FindEvent(inbox.events, id).Some? && inbox.Extends(old(inbox.events))
                && (handler.db.alone ==>
                      |inbox.events| == |old(inbox.events)| + if FindEvent(old(inbox.events), id).Some? then 0 else 1)
                && (r == Queued ==> FindEvent(old(inbox.events), id).None?)
                && (r == Duplicate ==> FindEvent(old(inbox.events), id).Some?)
                && (if queueEnabled
                    then unchanged(handler.db)
                         && IsQueued(old(inbox.events), old(inbox.jobs), old(inbox.retained), id, body, queueDown)
                    else IsHandled(old(inbox.events), old(handler.db.actions), w, id, body))
      ensures queueEnabled && (r == Threw || queueDown) ==> r == Threw && inbox.refusals > old(inbox.refusals)
      ensures providerDown ==> handler.WentDown(|old(handler.db.actions)|, w)
      ensures var asked := BodyToHandle(old(inbox.events), id, body);
              signatureValid && wellFormed && !queueEnabled && handler.db.alone && asked.Some?
                  && asked.value.TransferNews? ==>
                handler.NewsHandled(old(handler.db.Contents()), old(handler.db.transfers), old(handler.db.queue),
                                    |old(handler.db.refused)|, asked.value, r == Threw)
      ensures var found := FindEvent(old(inbox.events), id);
              signatureValid && wellFormed && handler.db.alone && body.ChargeSuccess?
              && (found.Some? ==> old(inbox.events)[found.value].body == body) ==>
                handler.TheDesk() == Webhooks.Ingest(old(handler.TheDesk()), old(handler.ChargeFor(body)), id, body.t,
                                                     queueEnabled, queueDown, providerDown)
    {
      queueDown, providerDown := false, false;
      if !signatureValid {
        return Unauthorized, false, false;
      }
      if !wellFormed {
        return BadRequest, false, false;
      }
      r, queueDown, providerDown := Accept(w, id, body);
    }

    /** Stored once, and enqueued unless already completed. */
    method Accept(ghost w: nat, id: string, body: EventBody)
      returns (r: IngestResult, ghost queueDown: bool, ghost providerDown: bool)
      requires inbox == handler.inbox && handler.Valid() && handler.db.Free(w)
      requires Truthful(body, handler.db.everDelivered)
      modifies inbox, handler.db
      ensures handler.Valid() && w !in handler.db.workers
      ensures r in {Queued, Duplicate, Threw}
      ensures FindEvent(inbox.events, id).Some? && inbox.Extends(old(inbox.events))
      ensures handler.db.alone ==>
                |inbox.events| == |old(inbox.events)| + if FindEvent(old(inbox.events), id).Some? then 0 else 1
      ensures (r == Queued ==> FindEvent(old(inbox.events), id).None?)
              && (r == Duplicate ==> FindEvent(old(inbox.events), id).Some?)
      ensures if queueEnabled
              then unchanged(handler.db)
                   && IsQueued(old(inbox.events), old(inbox.jobs), old(inbox.retained), id, body, queueDown)
              else IsHandled(old(inbox.events), old(handler.db.actions), w, id, body)
      ensures queueEnabled && (r == Threw || queueDown) ==> r == Threw && inbox.refusals > old(inbox.refusals)
      ensures providerDown ==> handler.WentDown(|old(handler.db.actions)|, w)
      ensures var asked := BodyToHandle(old(inbox.events), id, body);
              !queueEnabled && handler.db.alone && asked.Some? && asked.value.TransferNews? ==>
                handler.NewsHandled(old(handler.db.Contents()), old(handler.db.transfers), old(handler.db.queue),
                                    |old(handler.db.refused)|, asked.value, r == Threw)
      ensures var found := FindEvent(old(inbox.events), id);
              handler.db.alone && body.ChargeSuccess?
              && (found.Some? ==> old(inbox.events)[found.value].body == body) ==>
                handler.TheDesk() == Webhooks.Ingest(old(handler.TheDesk()), old(handler.ChargeFor(body)), id, body.t,
                                                     queueEnabled, queueDown, providerDown)
    {
      queueDown, providerDown := false, false;
      var e, created := Admit(id, body);
      if !created && inbox.events[e].status == Completed {
        return Duplicate, false, false;
      }
      var threw;
      threw, queueDown, providerDown := Enqueue(w, e);
      StillFound(inbox.events, id, e);
      r := if threw then Threw else if !created then Duplicate else Queued;
    }

    /** The row of this id: the stored one, or a new one. */
    method Admit(id: string, body: EventBody) returns (e: nat, created: bool)
      requires inbox == handler.inbox && handler.Valid() && Truthful(body, handler.db.everDelivered)
      modifies inbox`events
      ensures handler.Valid() && inbox.Extends(old(inbox.events)) && created == FindEvent(old(inbox.events), id).None?
      ensures e == if created then |old(inbox.events)| else FindEvent(old(inbox.events), id).value
      ensures e < |inbox.events| && inbox.events[e].externalEventId == id
      ensures inbox.events == if created then old(inbox.events) + [WebhookEvent(id, body, Pending)]
                              else old(inbox.events)
    {
      var row := inbox.Create(id, body);
      created := row.Some?;
      e := if row.Some? then row.value else FindEvent(inbox.events, id).value;
    }

    lemma StillFound(events: seq<WebhookEvent>, id: string, e: nat)
      requires e < |events| && events[e].externalEventId == id
      ensures FindEvent(events, id).Some?
    {
    }

    method Enqueue(ghost w: nat, e: nat) returns (threw: bool, ghost queueDown: bool, ghost providerDown: bool)
      requires inbox == handler.inbox && handler.Valid() && handler.db.Free(w)
      requires e < |inbox.events| && inbox.events[e].status != Completed
      modifies inbox, handler.db
      ensures handler.Valid() && w !in handler.db.workers && inbox.Extends(old(inbox.events))
      ensures handler.db.alone ==> |inbox.events| == |old(inbox.events)|
      ensures queueEnabled ==>
                && inbox.events == old(inbox.events) && unchanged(handler.db) && inbox.retained == old(inbox.retained)
                && inbox.jobs == old(inbox.jobs) + (if queueDown || e in inbox.retained then {} else {e})
                && (queueDown ==> threw) && (threw ==> inbox.refusals > old(inbox.refusals))
      ensures !queueEnabled ==> handler.Began(old(handler.db.actions), w, old(inbox.events)[e].body)
      ensures providerDown ==> handler.WentDown(|old(handler.db.actions)|, w)
      ensures !queueEnabled && handler.db.alone && old(inbox.events)[e].body.TransferNews? ==>
                handler.NewsHandled(old(handler.db.Contents()), old(handler.db.transfers), old(handler.db.queue),
                                    |old(handler.db.refused)|, old(inbox.events)[e].body, threw)
      ensures handler.db.alone && old(inbox.events)[e].body.ChargeSuccess? ==>
                handler.TheDesk() == Webhooks.Enqueue(old(handler.TheDesk()),
                                                      old(handler.ChargeFor(inbox.events[e].body)), e,
                                                      queueEnabled, queueDown, providerDown)
    {
      queueDown, providerDown := false, false;
      if !queueEnabled {
        threw, providerDown := handler.Handle(w, e);
        return;
      }
      threw, queueDown := inbox.Add(e);
    }
  }

  /** The worker of the webhook queue. */
  class WebhooksProcessor {
    const handler: WebhookEventHandler
    const inbox: Inbox

    constructor (handler: WebhookEventHandler)
      ensures this.handler == handler && inbox == handler.inbox
    {
      this.handler, this.inbox := handler, handler.inbox;
    }

    /** One attempt at a job: done, to be tried again, or retained after the last attempt. */
    method Process(ghost w: nat, e: nat, lastAttempt: bool) returns (threw: bool, ghost providerDown: bool)
      requires inbox == handler.inbox && handler.Valid() && handler.db.Free(w) && e in inbox.jobs
      modifies inbox, handler.db
      ensures handler.Valid() && w !in handler.db.workers && inbox.Extends(old(inbox.events))
      ensures e < |old(inbox.events)| && old(inbox.events)[e].status != Completed ==>
                && handler.Began(old(handler.db.actions), w, old(inbox.events)[e].body)
                && (threw ==> inbox.events[e].status == Failed)
      ensures !threw ==> e !in inbox.jobs
      ensures threw && lastAttempt ==> e !in inbox.jobs && e in inbox.retained
      ensures threw && !lastAttempt && handler.db.alone ==>
                inbox.jobs == old(inbox.jobs) && inbox.retained == old(inbox.retained)
      ensures providerDown ==> handler.WentDown(|old(handler.db.actions)|, w)
      ensures handler.db.alone && e < |old(inbox.events)| && old(inbox.events)[e].body.ChargeSuccess? ==>
                handler.TheDesk() == WorkJob(old(handler.TheDesk()), old(handler.ChargeFor(inbox.events[e].body)), e,
                                             providerDown, lastAttempt)
      ensures handler.db.alone && e < |old(inbox.events)| && old(inbox.events)[e].status != Completed
              && old(inbox.events)[e].body.TransferNews? ==>
                handler.NewsHandled(old(handler.db.Contents()), old(handler.db.transfers), old(handler.db.queue),
                                    |old(handler.db.refused)|, old(inbox.events)[e].body, threw)
    {
      threw, providerDown := handler.Handle(w, e);
      if !threw {
        inbox.jobs := inbox.jobs - {e};
      } else if lastAttempt {
        inbox.jobs, inbox.retained := inbox.jobs - {e}, inbox.retained + {e};
      }
    }
  }
}
