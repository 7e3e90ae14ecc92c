// ReepayWebhookService.handle with NotificationsService.createForUser carried out on the tables by one
// handler at a time. It is proved to be a run of the Webhook steps in which only that handler moves.
module WebhookService {
  import opened Webhook

  /** How each database call and the mail of one delivery end. */
  datatype Faults = Faults(
    insertEvent: Fate,
    insertNotification: Fate,
    email: Fate,
    markProcessed: Fate,
    markFailed: Fate,
    find: Fate,
    insertInvalid: Fate)
  {
    function At(stage: Stage): Fate {
      match stage
      case InsertingEvent => insertEvent
      case InsertingNotification(_) => insertNotification
      case SendingEmail => email
      case MarkingProcessed => markProcessed
      case MarkingFailed => markFailed
      case FindingEvent => find
      case InsertingInvalidEvent => insertInvalid
      case _ => Succeeds
    }
  }

  function StepsLeft(stage: Stage): nat {
    match stage
    case Checking => 6
    case InsertingEvent => 5
    case InsertingNotification(_) => 4
    case SendingEmail => 3
    case MarkingProcessed => 2
    case MarkingFailed => 1
    case FindingEvent => 2
    case InsertingInvalidEvent => 1
    case Finished(_) => 0
  }

  lemma StepTaken(w: World, h: nat, fate: Fate)
    requires h in w.handlers && !w.handlers[h].stage.Finished?
    ensures h in StepHandler(w, h, fate).handlers
    ensures StepsLeft(StepHandler(w, h, fate).handlers[h].stage) < StepsLeft(w.handlers[h].stage)
  {
    hide ExtractCustomerId, HeadersComplete, ToJson, NotificationFor;
  }

  function Advance(w: World, h: nat, faults: Faults): (w1: World)
    requires h in w.handlers && !w.handlers[h].stage.Finished?
    ensures h in w1.handlers && StepsLeft(w1.handlers[h].stage) < StepsLeft(w.handlers[h].stage)
  {
    var stage := w.handlers[h].stage;
    StepTaken(w, h, faults.At(stage));
    StepHandler(w, h, faults.At(stage))
  }

  /** Let one handler take all its steps. */
  function Complete(w: World, h: nat, faults: Faults): World
    requires h in w.handlers
    decreases StepsLeft(w.handlers[h].stage)
  {
    if w.handlers[h].stage.Finished? then w else Complete(Advance(w, h, faults), h, faults)
  }

  lemma CompleteAfter(w: World, w1: World, h: nat, faults: Faults)
    requires h in w.handlers && !w.handlers[h].stage.Finished?
    requires w1 == StepHandler(w, h, faults.At(w.handlers[h].stage))
    ensures h in w1.handlers && Complete(w, h, faults) == Complete(w1, h, faults)
  {
    hide StepHandler;
    assert w1 == Advance(w, h, faults);
  }

  lemma CompleteAtEnd(w: World, h: nat, faults: Faults)
    requires h in w.handlers && w.handlers[h].stage.Finished?
    ensures Complete(w, h, faults) == w
  {
  }

  /** A whole delivery is a sequence of protocol steps, so it keeps the invariant, and it always answers. */
  lemma {:induction false} CompleteKeepsInv(w: World, h: nat, faults: Faults)
    requires h in w.handlers && Inv(w)
    ensures h in Complete(w, h, faults).handlers && Complete(w, h, faults).handlers[h].stage.Finished?
    ensures Inv(Complete(w, h, faults))
    decreases StepsLeft(w.handlers[h].stage)
  {
    hide Inv, StepHandler;
    if !w.handlers[h].stage.Finished? {
      InvKept(w, Proceed(h, faults.At(w.handlers[h].stage)));
      CompleteKeepsInv(Advance(w, h, faults), h, faults);
    }
  }

  /** The tables, apart from who works on them. */
  predicate SameTables(w: World, t: World) {
    t.rows == w.rows && t.created == w.created
  }

  predicate Answers(t: World, h: nat, result: Result) {
    h in t.handlers && t.handlers[h].stage == Finished(result)
  }

  /** A delivery without all headers is refused; one with a bad signature at most leaves a failed row. */
  lemma {:induction false} RefusedDelivery(w: World, h: nat, faults: Faults)
    requires h in w.handlers && w.handlers[h].stage.Checking?
    requires var d := w.handlers[h].delivery; !AllHeaders(d.headers) || !d.signatureOk
    ensures var d, t := w.handlers[h].delivery, Complete(w, h, faults);
      var e := d.EventId();
      if !AllHeaders(d.headers) then Answers(t, h, BadRequest) && SameTables(w, t)
      else
        && Answers(t, h, Unauthorized) && t.created == w.created
        && t.rows == if faults.find.Succeeds? && !faults.insertInvalid.Fails? && e !in w.rows
                     then w.rows[e := EventRow(d.EventType(), ToJson(d.payload), false, Failed)] else w.rows
  {
    hide ExtractCustomerId, NotificationFor, ToJson;
    var w1 := StepHandler(w, h, Succeeds);
    CompleteAfter(w, w1, h, faults);
    if w1.handlers[h].stage.FindingEvent? {
      var w2 := StepHandler(w1, h, faults.find);
      CompleteAfter(w1, w2, h, faults);
      if w2.handlers[h].stage.InsertingInvalidEvent? {
        CompleteAfter(w2, StepHandler(w2, h, faults.insertInvalid), h, faults);
      }
    }
  }

  /** A well signed delivery of an event that is known already changes nothing. */
  lemma {:induction false} DuplicateDelivery(w: World, h: nat, faults: Faults)
    requires h in w.handlers && w.handlers[h].stage.Checking?
    requires var d := w.handlers[h].delivery; AllHeaders(d.headers) && d.signatureOk && d.EventId() in w.rows
    ensures var t := Complete(w, h, faults);
      SameTables(w, t) && Answers(t, h, if faults.insertEvent.Succeeds? then Accepted(true) else Threw)
  {
    hide ExtractCustomerId, NotificationFor, ToJson;
    var w1 := StepHandler(w, h, Succeeds);
    CompleteAfter(w, w1, h, faults);
    CompleteAfter(w1, StepHandler(w1, h, faults.insertEvent), h, faults);
  }

  /** The customer named by the payload can be notified, and notification and mail go through; or nobody is named. */
  predicate Notifies(w: World, d: Delivery, faults: Faults) {
    var customer := ExtractCustomerId(d.payload);
    customer.Some? ==> customer.value in w.users && faults.insertNotification.Succeeds? && faults.email.Succeeds?
  }

  /** The row a first, well signed delivery inserts, with its last status. */
  function RowOf(d: Delivery, status: Status): EventRow {
    EventRow(d.EventType(), ToJson(d.payload), true, status)
  }

  lemma {:induction false} AcceptedDelivery(w: World, h: nat, faults: Faults) returns (w2: World)
    requires h in w.handlers && w.handlers[h].stage.Checking? && faults.insertEvent.Succeeds?
    requires var d := w.handlers[h].delivery; AllHeaders(d.headers) && d.signatureOk && d.EventId() !in w.rows
    ensures var d := w.handlers[h].delivery;
      && h in w2.handlers && w2.handlers[h] == Handler(d, AfterInsert(d.payload)) && w2.users == w.users
      && w2.created == w.created && w2.rows == w.rows[d.EventId() := RowOf(d, Received)]
      && Complete(w, h, faults) == Complete(w2, h, faults)
  {
    hide ExtractCustomerId, NotificationFor, ToJson, AfterInsert;
    var w1 := StepHandler(w, h, Succeeds);
    CompleteAfter(w, w1, h, faults);
    w2 := StepHandler(w1, h, Succeeds);
    CompleteAfter(w1, w2, h, faults);
  }

  /** A well signed delivery is never refused. */
  lemma {:induction false} SignedDelivery(w: World, h: nat, faults: Faults)
    requires h in w.handlers && !w.handlers[h].stage.FindingEvent? && !w.handlers[h].stage.InsertingInvalidEvent?
    requires var d := w.handlers[h].delivery; AllHeaders(d.headers) && d.signatureOk
    requires !Answers(w, h, BadRequest) && !Answers(w, h, Unauthorized)
    ensures var t := Complete(w, h, faults); !Answers(t, h, BadRequest) && !Answers(t, h, Unauthorized)
    decreases StepsLeft(w.handlers[h].stage)
  {
    hide ExtractCustomerId, NotificationFor, ToJson, Written;
    if !w.handlers[h].stage.Finished? {
      var w1 := Advance(w, h, faults);
      CompleteAfter(w, w1, h, faults);
      SignedDelivery(w1, h, faults);
    }
  }

  /** The notifications after a first delivery: one more exactly if its insert took effect. */
  function CreatedAfter(w: World, d: Delivery, faults: Faults): seq<Created> {
    match ExtractCustomerId(d.payload)
    case None => w.created
    case Some(u) =>
      if u !in w.users || faults.insertNotification.Fails? then w.created
      else w.created + [Created(d.EventId(), NotificationFor(u, d.EventType(), ToJson(d.payload)))]
  }

  /** What follows the insert, up to the mark. */
  lemma {:induction false} NotifyingPart(w: World, h: nat, d: Delivery, faults: Faults) returns (w2: World)
    requires h in w.handlers && w.handlers[h] == Handler(d, AfterInsert(d.payload))
    ensures h in w2.handlers && w2.rows == w.rows && Complete(w, h, faults) == Complete(w2, h, faults)
    ensures w2.handlers[h] == Handler(d, if Notifies(w, d, faults) then MarkingProcessed else MarkingFailed)
    ensures w2.created == CreatedAfter(w, d, faults)
  {
    hide ExtractCustomerId, NotificationFor, ToJson, HeadersComplete, Mark;
    w2 := w;
    if ExtractCustomerId(d.payload).Some? {
      w2 := StepHandler(w, h, faults.insertNotification);
      CompleteAfter(w, w2, h, faults);
      if w2.handlers[h].stage.SendingEmail? {
        var w1 := w2;
        w2 := StepHandler(w1, h, faults.email);
        CompleteAfter(w1, w2, h, faults);
      }
    }
  }

  lemma {:induction false} MarkingPart(w: World, h: nat, d: Delivery, ok: bool, faults: Faults)
    requires h in w.handlers && w.handlers[h] == Handler(d, if ok then MarkingProcessed else MarkingFailed)
    requires d.EventId() in w.rows && faults.markProcessed.Succeeds? && faults.markFailed.Succeeds?
    ensures var t, e := Complete(w, h, faults), d.EventId();
      && Answers(t, h, Accepted(false)) && t.created == w.created
      && t.rows == w.rows[e := w.rows[e].(status := if ok then Processed else Failed)]
  {
    hide ExtractCustomerId, NotificationFor, ToJson, HeadersComplete;
    CompleteAfter(w, StepHandler(w, h, Succeeds), h, faults);
  }

  /**
   * A first, well signed delivery whose row can be inserted and marked is accepted: its row is PROCESSED exactly
   * if nobody is named or the customer exists and notification and mail go through, and FAILED otherwise; the
   * notification is there exactly if its insert took effect.
   */
  lemma {:induction false} FirstDelivery(w: World, h: nat, faults: Faults)
    requires h in w.handlers && w.handlers[h].stage.Checking? && faults.insertEvent.Succeeds?
    requires faults.markProcessed.Succeeds? && faults.markFailed.Succeeds?
    requires var d := w.handlers[h].delivery; AllHeaders(d.headers) && d.signatureOk && d.EventId() !in w.rows
    ensures var d, t := w.handlers[h].delivery, Complete(w, h, faults);
      && Answers(t, h, Accepted(false))
      && t.rows == w.rows[d.EventId() := RowOf(d, if Notifies(w, d, faults) then Processed else Failed)]
      && t.created == CreatedAfter(w, d, faults)
  {
    hide StepHandler, Complete, ExtractCustomerId, NotificationFor, ToJson, AllHeaders, AfterInsert;
    var d := w.handlers[h].delivery;
    var w2 := AcceptedDelivery(w, h, faults);
    var w3 := NotifyingPart(w2, h, d, faults);
    MarkingPart(w3, h, d, Notifies(w, d, faults), faults);
  }

  lemma HandlerJoins(rows: map<string, EventRow>, created: seq<Created>, users: set<string>,
                     owners: map<string, nat>, h: nat, d: Delivery)
    requires Inv(World(rows, created, users, map[], owners))
    ensures Inv(World(rows, created, users, map[h := Handler(d, Checking)], owners))
  {
    var w := World(rows, created, users, map[], owners);
    assert Do(w, Deliver(h, d)) == World(rows, created, users, map[h := Handler(d, Checking)], owners);
    InvKept(w, Deliver(h, d));
  }

  lemma HandlerLeaves(rows: map<string, EventRow>, created: seq<Created>, users: set<string>,
                      owners: map<string, nat>, h: nat, d: Delivery, stage: Stage)
    requires Inv(World(rows, created, users, map[h := Handler(d, stage)], owners))
    ensures Inv(World(rows, created, users, map[], owners))
  {
    hide ExtractCustomerId, NotificationFor;
    var w, t := World(rows, created, users, map[h := Handler(d, stage)], owners),
        World(rows, created, users, map[], owners);
    assert forall e :: Notified(w, e) <==> Notified(t, e);
    forall e ensures RowOk(t, e) { assert RowOk(w, e); }
    forall i: nat ensures CreatedOk(t, i) { assert CreatedOk(w, i); }
  }

  class ReepayWebhookService {
    var rows: map<string, EventRow>
    var notifications: seq<Created>
    var users: set<string>
    ghost var owners: map<string, nat>

    /** The tables satisfy the protocol's invariant. */
    ghost predicate Valid()
      reads this
    {
      Inv(World(rows, notifications, users, map[], owners))
    }

    constructor (users: set<string>)
      ensures Valid() && rows == map[] && notifications == [] && this.users == users
    {
      rows, notifications, this.users, owners := map[], [], users, map[];
    }

    /** The tables as the protocol sees them while handler h is the only one about. */
    ghost function View(h: nat, d: Delivery, stage: Stage): World
      reads this
    {
      World(rows, notifications, users, map[h := Handler(d, stage)], owners)
    }

    method Handle(ghost h: nat, d: Delivery, faults: Faults) returns (result: Result)
      requires Valid()
      modifies this
      ensures Valid()
      ensures View(h, d, Finished(result)) == Complete(old(View(h, d, Checking)), h, faults)
      ensures result == BadRequest <==> !AllHeaders(d.headers)
      ensures result == Unauthorized <==> AllHeaders(d.headers) && !d.signatureOk
      ensures !AllHeaders(d.headers) || !d.signatureOk ==> notifications == old(notifications)
    {
      hide Inv;
      ghost var w := View(h, d, Checking);
      HandlerJoins(rows, notifications, users, owners, h, d);
      CompleteKeepsInv(w, h, faults);
      if !AllHeaders(d.headers) || !d.signatureOk {
        RefusedDelivery(w, h, faults);
      } else {
        SignedDelivery(w, h, faults);
      }
      result := HandleSteps(h, d, faults);
      HandlerLeaves(rows, notifications, users, owners, h, d, Finished(result));
    }

    method HandleSteps(ghost h: nat, d: Delivery, faults: Faults) returns (result: Result)
      modifies this
      ensures View(h, d, Finished(result)) == Complete(old(View(h, d, Checking)), h, faults)
    {
      hide ExtractCustomerId, HeadersComplete, NotificationFor, ToJson, Mark, StepsLeft, Complete, AfterInsert;
      ghost var w := View(h, d, Checking);
      CompleteAfter(w, StepHandler(w, h, Succeeds), h, faults);
      if !HeadersComplete(d.headers) {
        CompleteAtEnd(View(h, d, Finished(BadRequest)), h, faults);
        assert View(h, d, Finished(BadRequest)) == StepHandler(w, h, Succeeds);
        return BadRequest;
      }
      if !d.signatureOk {
        assert View(h, d, FindingEvent) == StepHandler(w, h, Succeeds);
        PersistInvalidSignatureEvent(h, d, faults);
        return Unauthorized;
      }
      assert View(h, d, InsertingEvent) == StepHandler(w, h, Succeeds);
      result := InsertEvent(h, d, faults);
    }

    /** The insert that decides between first delivery and duplicate, and what follows it. */
    method InsertEvent(ghost h: nat, d: Delivery, faults: Faults) returns (result: Result)
      modifies this
      ensures View(h, d, Finished(result)) == Complete(old(View(h, d, InsertingEvent)), h, faults)
    {
      hide ExtractCustomerId, HeadersComplete, NotificationFor, ToJson, Mark, StepsLeft, Complete, AfterInsert;
      ghost var w := View(h, d, InsertingEvent);
      CompleteAfter(w, StepHandler(w, h, faults.insertEvent), h, faults);
      var e := d.EventId();
      if faults.insertEvent.Fails? || e in rows {
        result := if faults.insertEvent.Succeeds? then Accepted(true) else Threw;
        CompleteAtEnd(View(h, d, Finished(result)), h, faults);
        assert View(h, d, Finished(result)) == StepHandler(w, h, faults.insertEvent);
        return;
      }
      rows := rows[e := EventRow(d.EventType(), ToJson(d.payload), true, Received)];
      owners := owners[e := h];
      if faults.insertEvent.CommitsThenFails? {
        CompleteAtEnd(View(h, d, Finished(Threw)), h, faults);
        assert View(h, d, Finished(Threw)) == StepHandler(w, h, faults.insertEvent);
        return Threw;
      }
      assert View(h, d, AfterInsert(d.payload)) == StepHandler(w, h, Succeeds);
      var ok := ProcessAcceptedEvent(h, d, faults);
      result := if ok then Accepted(false) else Threw;
    }

    /** Notify and mark as processed; any error on the way leads to the failed mark. False when that failed too. */
    method ProcessAcceptedEvent(ghost h: nat, d: Delivery, faults: Faults) returns (ok: bool)
      requires d.EventId() in rows
      modifies this
      ensures View(h, d, Finished(if ok then Accepted(false) else Threw))
           == Complete(old(View(h, d, AfterInsert(d.payload))), h, faults)
    {
      var threw := false;
      match ExtractCustomerId(d.payload) {
        case None =>
        case Some(userId) => threw := CreateForUser(h, d, userId, faults);
      }
      if !threw {
        threw := MarkProcessed(h, d, faults);
      }
      ok := true;
      if threw {
        ok := MarkFailed(h, d, faults);
      }
    }

    /** True when the update threw, whether or not it took effect. */
    method MarkProcessed(ghost h: nat, d: Delivery, faults: Faults) returns (threw: bool)
      requires d.EventId() in rows
      modifies this
      ensures d.EventId() in rows
      ensures threw ==>
          Complete(View(h, d, MarkingFailed), h, faults) == Complete(old(View(h, d, MarkingProcessed)), h, faults)
      ensures !threw ==> View(h, d, Finished(Accepted(false))) == Complete(old(View(h, d, MarkingProcessed)), h, faults)
    {
      hide ExtractCustomerId, HeadersComplete, NotificationFor, ToJson, StepsLeft, Complete, AfterInsert;
      var e := d.EventId();
      ghost var w := View(h, d, MarkingProcessed);
      CompleteAfter(w, StepHandler(w, h, faults.markProcessed), h, faults);
      threw := !faults.markProcessed.Succeeds?;
      if !faults.markProcessed.Fails? {
        rows := rows[e := rows[e].(status := Processed)];
      }
      CompleteAtEnd(View(h, d, Finished(Accepted(false))), h, faults);
      assert View(h, d, if threw then MarkingFailed else Finished(Accepted(false)))
          == StepHandler(w, h, faults.markProcessed);
    }

    method MarkFailed(ghost h: nat, d: Delivery, faults: Faults) returns (ok: bool)
      requires d.EventId() in rows
      modifies this
      ensures View(h, d, Finished(if ok then Accepted(false) else Threw))
           == Complete(old(View(h, d, MarkingFailed)), h, faults)
    {
      hide ExtractCustomerId, HeadersComplete, NotificationFor, ToJson, StepsLeft, Complete, AfterInsert;
      var e := d.EventId();
      ghost var w := View(h, d, MarkingFailed);
      CompleteAfter(w, StepHandler(w, h, faults.markFailed), h, faults);
      ok := faults.markFailed.Succeeds?;
      if !faults.markFailed.Fails? {
        rows := rows[e := rows[e].(status := Failed)];
      }
      CompleteAtEnd(View(h, d, Finished(if ok then Accepted(false) else Threw)), h, faults);
      assert View(h, d, Finished(if ok then Accepted(false) else Threw)) == StepHandler(w, h, faults.markFailed);
    }

    /** The insert of the notification, then its e-mail; true when one of them threw. */
    method CreateForUser(ghost h: nat, d: Delivery, userId: string, faults: Faults) returns (threw: bool)
      modifies this
      ensures rows == old(rows)
      ensures Complete(View(h, d, if threw then MarkingFailed else MarkingProcessed), h, faults)
           == Complete(old(View(h, d, InsertingNotification(userId))), h, faults)
    {
      hide ExtractCustomerId, HeadersComplete, Title, Body, ToJson, Complete, Mark, AfterInsert;
      ghost var w := View(h, d, InsertingNotification(userId));
      CompleteAfter(w, StepHandler(w, h, faults.insertNotification), h, faults);
      if faults.insertNotification.Fails? || userId !in users {
        assert View(h, d, MarkingFailed) == StepHandler(w, h, faults.insertNotification);
        return true;
      }
      var kind := d.EventType();
      var notification := Notification(userId, kind, Title(kind), Body(kind), ToJson(d.payload));
      notifications := notifications + [Created(d.EventId(), notification)];
      if faults.insertNotification.CommitsThenFails? {
        assert View(h, d, MarkingFailed) == StepHandler(w, h, faults.insertNotification);
        return true;
      }
      assert View(h, d, SendingEmail) == StepHandler(w, h, Succeeds);
      threw := SendEmailIfEnabled(h, d, faults);
    }

    method SendEmailIfEnabled(ghost h: nat, d: Delivery, faults: Faults) returns (threw: bool)
      ensures Complete(View(h, d, if threw then MarkingFailed else MarkingProcessed), h, faults)
           == Complete(View(h, d, SendingEmail), h, faults)
    {
      hide ExtractCustomerId, HeadersComplete, NotificationFor, ToJson, Complete, Mark, AfterInsert;
      ghost var w := View(h, d, SendingEmail);
      CompleteAfter(w, StepHandler(w, h, faults.email), h, faults);
      threw := !faults.email.Succeeds?;
      assert View(h, d, if threw then MarkingFailed else MarkingProcessed) == StepHandler(w, h, faults.email);
    }

    method PersistInvalidSignatureEvent(ghost h: nat, d: Delivery, faults: Faults)
      modifies this
      ensures View(h, d, Finished(Unauthorized)) == Complete(old(View(h, d, FindingEvent)), h, faults)
    {
      hide ExtractCustomerId, HeadersComplete, NotificationFor, ToJson, Mark, StepsLeft, Complete, AfterInsert;
      var e := d.EventId();
      CompleteAtEnd(View(h, d, Finished(Unauthorized)), h, faults);
      ghost var w := View(h, d, FindingEvent);
      CompleteAfter(w, StepHandler(w, h, faults.find), h, faults);
      if !faults.find.Succeeds? || e in rows {
        assert View(h, d, Finished(Unauthorized)) == StepHandler(w, h, faults.find);
        return;
      }
      ghost var w1 := View(h, d, InsertingInvalidEvent);
      assert w1 == StepHandler(w, h, Succeeds);
      CompleteAfter(w1, StepHandler(w1, h, faults.insertInvalid), h, faults);
      if !faults.insertInvalid.Fails? {
        rows := rows[e := EventRow(d.EventType(), ToJson(d.payload), false, Failed)];
      }
      CompleteAtEnd(View(h, d, Finished(Unauthorized)), h, faults);
      assert View(h, d, Finished(Unauthorized)) == StepHandler(w1, h, faults.insertInvalid);
    }
  }
}
