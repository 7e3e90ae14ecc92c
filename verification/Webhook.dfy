// src/webhooks/reepay-webhook.service.ts with src/notifications/notifications.service.ts as its last step.
// Every database call and the e-mail is a step of its own; any number of deliveries are handled at once,
// and a handler may stop for ever between two steps. The only synchronisation is the unique event id.
module Webhook {
  import opened Wrappers
  import opened Text
  import opened Json

  datatype Headers = Headers(
    signature: Option<string>,
    eventType: Option<string>,
    eventId: Option<string>,
    timestamp: Option<string>,
    requestId: Option<string>)

  /** A delivery; `signatureOk` is what the HMAC comparison of a non-empty signature yields. */
  datatype Delivery = Delivery(headers: Headers, signatureOk: bool, payload: Option<Value>) {
    function EventId(): string { headers.eventId.GetOr("") }
    function EventType(): string { headers.eventType.GetOr("") }
  }

  datatype Status = Received | Processed | Failed

  datatype EventRow = EventRow(eventType: string, payload: Value, signatureValid: bool, status: Status)

  datatype Notification = Notification(userId: string, kind: string, title: string, body: string, payload: Value)

  /** A notification that was inserted, and the event it was inserted for. */
  datatype Created = Created(eventId: string, notification: Notification)

  datatype Result = Accepted(duplicate: bool) | BadRequest | Unauthorized | Threw

  /** The next thing a handler will do. */
  datatype Stage =
    | Checking
    | InsertingEvent
    | InsertingNotification(userId: string)
    | SendingEmail
    | MarkingProcessed
    | MarkingFailed
    | FindingEvent
    | InsertingInvalidEvent
    | Finished(result: Result)

  datatype Handler = Handler(delivery: Delivery, stage: Stage)

  /**
   * The event table, all notifications ever inserted, the users that exist, and the handlers; `owners` names
   * the handler whose insert of a valid event succeeded.
   */
  datatype World = World(
    rows: map<string, EventRow>,
    created: seq<Created>,
    users: set<string>,
    handlers: map<nat, Handler>,
    owners: map<string, nat>)

  /** How a database call or an e-mail ends; a write may also take effect and still be reported as an error. */
  datatype Fate = Succeeds | Fails | CommitsThenFails

  datatype Action =
    | Deliver(handler: nat, delivery: Delivery)
    | Proceed(handler: nat, fate: Fate)
    | AddUser(userId: string)
    | RemoveUser(userId: string)

  // ----- pure parts -----

  predicate Present(header: Option<string>) {
    header.Some? && header.value != ""
  }

  predicate HeadersComplete(h: Headers) {
    Present(h.signature) && Present(h.eventType) && Present(h.eventId) && Present(h.timestamp) && Present(h.requestId)
  }

  function ExtractCustomerId(payload: Option<Value>): Option<string> {
    var direct := StringProperty(payload, "customerId");
    if direct.Some? then direct
    else
      var data := RecordProperty(payload, "data");
      var nested := StringProperty(data, "customerId");
      if nested.Some? then nested else StringProperty(data, "userId")
  }

  /** `value ?? {}` through a JSON round trip. */
  function ToJson(payload: Option<Value>): Value {
    if payload.None? || payload.value.Null? then Obj(map[]) else payload.value
  }

  function Title(eventType: string): string {
    "Reepay " + eventType
  }

  function DotsToSpaces(s: string): string {
    seq(|s|, i requires 0 <= i < |s| => if s[i] == '.' then ' ' else s[i])
  }

  function Body(eventType: string): string {
    "Your " + DotsToSpaces(eventType) + " update is available."
  }

  function NotificationFor(userId: string, eventType: string, payload: Value): Notification {
    Notification(userId, eventType, Title(eventType), Body(eventType), payload)
  }

  /** What is stored about the event names the same customer as the payload that arrived. */
  lemma StoredPayloadNamesCustomer(payload: Option<Value>)
    ensures ExtractCustomerId(Some(ToJson(payload))) == ExtractCustomerId(payload)
  {
  }

  /** The customer id is the first non-blank string among the three places it may be in. */
  lemma CustomerIdIsFirstUsable(payload: Option<Value>)
    ensures var data := RecordProperty(payload, "data");
      var places :=
          [StringProperty(payload, "customerId"), StringProperty(data, "customerId"), StringProperty(data, "userId")];
      if ExtractCustomerId(payload).None? then places == [None, None, None]
      else exists i | 0 <= i < 3 :: places[i] == ExtractCustomerId(payload) && forall j | 0 <= j < i :: places[j].None?
    ensures ExtractCustomerId(payload).Some? ==> Trim(ExtractCustomerId(payload).value) != ""
  {
    var data := RecordProperty(payload, "data");
    var places :=
        [StringProperty(payload, "customerId"), StringProperty(data, "customerId"), StringProperty(data, "userId")];
    assert places[0] == StringProperty(payload, "customerId") && places[1] == StringProperty(data, "customerId")
        && places[2] == StringProperty(data, "userId");
  }

  // ----- steps -----

  function Next(w: World, h: nat, stage: Stage): World
    requires h in w.handlers
  {
    w.(handlers := w.handlers[h := w.handlers[h].(stage := stage)])
  }

  function Mark(w: World, e: string, status: Status): World {
    if e in w.rows then w.(rows := w.rows[e := w.rows[e].(status := status)]) else w
  }

  /** The stage after the event row is in: straight to the mark when the payload names nobody. */
  function AfterInsert(payload: Option<Value>): Stage {
    match ExtractCustomerId(payload)
    case Some(u) => InsertingNotification(u)
    case None => MarkingProcessed
  }

  /** What the step writes; a write happens unless it fails cleanly. */
  function Written(w: World, h: nat, fate: Fate): (t: World)
    requires h in w.handlers
    ensures t.handlers == w.handlers && t.users == w.users
  {
    var d := w.handlers[h].delivery;
    var e := d.EventId();
    if fate.Fails? then w
    else match w.handlers[h].stage
      case InsertingEvent =>
        if e in w.rows then w
        else w.(rows := w.rows[e := EventRow(d.EventType(), ToJson(d.payload), true, Received)],
                owners := w.owners[e := h])
      case InsertingNotification(u) =>
        if u !in w.users then w
        else w.(created := w.created + [Created(e, NotificationFor(u, d.EventType(), ToJson(d.payload)))])
      case MarkingProcessed => Mark(w, e, Processed)
      case MarkingFailed => Mark(w, e, Failed)
      case InsertingInvalidEvent =>
        if e in w.rows then w
        else w.(rows := w.rows[e := EventRow(d.EventType(), ToJson(d.payload), false, Failed)])
      case _ => w
  }

  /** Where the handler goes next: anything but success is an error to it. */
  function Following(w: World, h: nat, fate: Fate): Stage
    requires h in w.handlers
  {
    var d := w.handlers[h].delivery;
    var e := d.EventId();
    match w.handlers[h].stage
    case Checking =>
      if !HeadersComplete(d.headers) then Finished(BadRequest)
      else if d.signatureOk then InsertingEvent
      else FindingEvent
    case InsertingEvent =>
      if !fate.Succeeds? then Finished(Threw)
      else if e in w.rows then Finished(Accepted(true))
      else AfterInsert(d.payload)
    case InsertingNotification(u) => if fate.Succeeds? && u in w.users then SendingEmail else MarkingFailed
    case SendingEmail => if fate.Succeeds? then MarkingProcessed else MarkingFailed
    case MarkingProcessed => if fate.Succeeds? then Finished(Accepted(false)) else MarkingFailed
    case MarkingFailed => Finished(if fate.Succeeds? then Accepted(false) else Threw)
    case FindingEvent =>
      if fate.Succeeds? && e !in w.rows then InsertingInvalidEvent else Finished(Unauthorized)
    case InsertingInvalidEvent => Finished(Unauthorized)
    case Finished(result) => Finished(result)
  }

  function StepHandler(w: World, h: nat, fate: Fate): World
    requires h in w.handlers
  {
    Next(Written(w, h, fate), h, Following(w, h, fate))
  }

  function Do(w: World, a: Action): World {
    match a
    case Deliver(h, d) => if h in w.handlers then w else w.(handlers := w.handlers[h := Handler(d, Checking)])
    case Proceed(h, fate) => if h in w.handlers then StepHandler(w, h, fate) else w
    case AddUser(u) => w.(users := w.users + {u})
    case RemoveUser(u) => w.(users := w.users - {u})
  }

  function Start(users: set<string>): World {
    World(map[], [], users, map[], map[])
  }

  /** An endless schedule of arrivals and steps, starting with some users and no events. */
  datatype Schedule = Schedule(users: set<string>, actions: nat -> Action)

  function WorldAt(run: Schedule, n: nat): World {
    if n == 0 then Start(run.users) else Do(WorldAt(run, n - 1), run.actions(n - 1))
  }

  // ----- the invariant -----

  ghost predicate Notified(w: World, e: string) {
    exists i :: 0 <= i < |w.created| && w.created[i].eventId == e
  }

  /** The handler has inserted the row of its event and is on its way to mark it, or has marked it. */
  predicate PastInsert(stage: Stage) {
    stage.InsertingNotification? || stage.SendingEmail? || stage.MarkingProcessed? || stage.MarkingFailed?
    || stage == Finished(Accepted(false))
  }

  ghost predicate OwnsRow(w: World, h: nat, d: Delivery) {
    var e := d.EventId();
    && e in w.owners && w.owners[e] == h && e in w.rows
    && w.rows[e].signatureValid && w.rows[e].eventType == d.EventType() && w.rows[e].payload == ToJson(d.payload)
  }

  ghost predicate StageAgrees(w: World, d: Delivery, stage: Stage) {
    var e, customer := d.EventId(), ExtractCustomerId(d.payload);
    e in w.rows &&
    match stage
    case InsertingNotification(u) => w.rows[e].status == Received && !Notified(w, e) && customer == Some(u)
    case SendingEmail => w.rows[e].status == Received && Notified(w, e) && customer.Some?
    case MarkingProcessed => w.rows[e].status == Received && (Notified(w, e) <==> customer.Some?)
    case MarkingFailed => w.rows[e].status != Failed
    case Finished(_) => w.rows[e].status != Received
    case _ => true
  }

  ghost predicate HandlerOk(w: World, h: nat) {
    h in w.handlers && PastInsert(w.handlers[h].stage) ==>
      OwnsRow(w, h, w.handlers[h].delivery) && StageAgrees(w, w.handlers[h].delivery, w.handlers[h].stage)
  }

  ghost predicate RowOk(w: World, e: string) {
    && (e !in w.rows ==> e !in w.owners && !Notified(w, e))
    && (e in w.rows ==>
          var row := w.rows[e];
          && (!row.signatureValid ==> row.status == Failed && e !in w.owners && !Notified(w, e))
          && (row.signatureValid ==> e in w.owners)
          && (row.status == Processed ==> (Notified(w, e) <==> ExtractCustomerId(Some(row.payload)).Some?)))
  }

  ghost predicate CreatedOk(w: World, i: nat) {
    i < |w.created| ==>
      var c := w.created[i];
      && c.eventId in w.rows
      && (var row := w.rows[c.eventId];
          && ExtractCustomerId(Some(row.payload)) == Some(c.notification.userId)
          && c.notification == NotificationFor(c.notification.userId, row.eventType, row.payload))
  }

  ghost predicate DistinctEvents(w: World) {
    forall i, j | 0 <= i < j < |w.created| :: w.created[i].eventId != w.created[j].eventId
  }

  ghost predicate Inv(w: World) {
    && (forall h :: HandlerOk(w, h))
    && (forall e :: RowOk(w, e))
    && (forall i: nat :: CreatedOk(w, i))
    && DistinctEvents(w)
  }

  // ----- one step -----

  lemma NotifiedAfter(w: World, a: Action, e: string)
    ensures Notified(Do(w, a), e) <==>
      || Notified(w, e)
      || (a.Proceed? && a.handler in w.handlers && w.handlers[a.handler].stage.InsertingNotification?
          && !a.fate.Fails? && w.handlers[a.handler].stage.userId in w.users
          && w.handlers[a.handler].delivery.EventId() == e)
  {
    var t := Do(w, a);
    if i :| 0 <= i < |w.created| && w.created[i].eventId == e {
      assert t.created[i].eventId == e;
    }
    if |t.created| > |w.created| && t.created[|w.created|].eventId == e {
      assert Notified(t, e);
    }
  }

  function Rank(status: Status): nat {
    match status
    case Received => 0
    case Processed => 1
    case Failed => 2
  }

  /** Type, payload and signature flag never change; the status only moves towards Failed. */
  predicate RowKept(before: EventRow, after: EventRow) {
    after == before.(status := after.status) && Rank(before.status) <= Rank(after.status)
  }

  lemma DoKeepsRow(w: World, a: Action, e: string)
    requires Inv(w) && e in w.rows
    ensures e in Do(w, a).rows && RowKept(w.rows[e], Do(w, a).rows[e])
  {
    hide ExtractCustomerId, Notified;
    if a.Proceed? {
      assert HandlerOk(w, a.handler);
    }
  }

  /** The handler that takes the step owns its row afterwards, if it is past the insert. */
  lemma StepKeepsRowOwned(w: World, h: nat, fate: Fate)
    requires Inv(w) && h in w.handlers && PastInsert(StepHandler(w, h, fate).handlers[h].stage)
    ensures OwnsRow(StepHandler(w, h, fate), h, w.handlers[h].delivery)
  {
    hide ExtractCustomerId, Notified, HeadersComplete, NotificationFor, DistinctEvents, CreatedOk, StageAgrees;
    assert HandlerOk(w, h);
  }

  /** Its stage agrees with its row. */
  lemma StepKeepsStage(w: World, h: nat, fate: Fate)
    requires Inv(w) && h in w.handlers && PastInsert(StepHandler(w, h, fate).handlers[h].stage)
    ensures StageAgrees(StepHandler(w, h, fate), w.handlers[h].delivery, StepHandler(w, h, fate).handlers[h].stage)
  {
    hide ExtractCustomerId, Notified, HeadersComplete, NotificationFor, DistinctEvents, CreatedOk, ToJson;
    assert HandlerOk(w, h);
    NotifiedAfter(w, Proceed(h, fate), w.handlers[h].delivery.EventId());
    assert RowOk(w, w.handlers[h].delivery.EventId());
  }

  lemma StepKeepsOwn(w: World, h: nat, fate: Fate)
    requires Inv(w)
    ensures HandlerOk(Do(w, Proceed(h, fate)), h)
  {
    hide Written, Following, Inv, OwnsRow, StageAgrees, PastInsert;
    if h in w.handlers {
      if PastInsert(StepHandler(w, h, fate).handlers[h].stage) {
        StepKeepsRowOwned(w, h, fate);
        StepKeepsStage(w, h, fate);
      }
    }
  }

  /** Every other handler. */
  lemma DoKeepsOther(w: World, a: Action, h: nat)
    requires Inv(w) && !(a.Proceed? && a.handler == h)
    ensures HandlerOk(Do(w, a), h)
  {
    hide ExtractCustomerId, Notified, HeadersComplete, Body, Title, DistinctEvents, CreatedOk, RowOk, ToJson;
    assert HandlerOk(w, h);
    if a.Proceed? && a.handler in w.handlers {
      assert HandlerOk(w, a.handler);
    }
    if h in w.handlers {
      NotifiedAfter(w, a, w.handlers[h].delivery.EventId());
    }
  }

  lemma DoKeepsHandler(w: World, a: Action, h: nat)
    requires Inv(w)
    ensures HandlerOk(Do(w, a), h)
  {
    hide Do, Inv, HandlerOk;
    if a.Proceed? && a.handler == h {
      StepKeepsOwn(w, h, a.fate);
    } else {
      DoKeepsOther(w, a, h);
    }
  }

  lemma DoKeepsRowOk(w: World, a: Action, e: string)
    requires Inv(w)
    ensures RowOk(Do(w, a), e)
  {
    hide ExtractCustomerId, Notified, HeadersComplete, Body, Title, DistinctEvents;
    NotifiedAfter(w, a, e);
    assert RowOk(w, e);
    if a.Proceed? && a.handler in w.handlers {
      assert HandlerOk(w, a.handler);
      StoredPayloadNamesCustomer(w.handlers[a.handler].delivery.payload);
    }
  }

  lemma DoKeepsCreated(w: World, a: Action)
    requires Inv(w)
    ensures (forall i: nat :: CreatedOk(Do(w, a), i)) && DistinctEvents(Do(w, a))
  {
    hide ExtractCustomerId, HeadersComplete, Body, Title, RowOk;
    var t := Do(w, a);
    if a.Proceed? && a.handler in w.handlers {
      assert HandlerOk(w, a.handler);
      StoredPayloadNamesCustomer(w.handlers[a.handler].delivery.payload);
    }
    forall i: nat
      ensures CreatedOk(t, i)
    {
      assert CreatedOk(w, i);
      if i < |w.created| {
        DoKeepsRow(w, a, w.created[i].eventId);
      }
    }
  }

  lemma InvKept(w: World, a: Action)
    requires Inv(w)
    ensures Inv(Do(w, a))
  {
    hide Do, HandlerOk, RowOk, CreatedOk, DistinctEvents;
    forall h ensures HandlerOk(Do(w, a), h) { DoKeepsHandler(w, a, h); }
    forall e ensures RowOk(Do(w, a), e) { DoKeepsRowOk(w, a, e); }
    DoKeepsCreated(w, a);
  }

  lemma {:induction false} Reachable(run: Schedule, n: nat)
    ensures Inv(WorldAt(run, n))
  {
    hide Do;
    if n > 0 {
      Reachable(run, n - 1);
      InvKept(WorldAt(run, n - 1), run.actions(n - 1));
    }
  }

  // ----- theorems about every schedule -----

  predicate FirstAcceptance(w: World, h: nat, e: string) {
    h in w.handlers && w.handlers[h].delivery.EventId() == e && w.handlers[h].stage == Finished(Accepted(false))
  }

  /**
   * However the deliveries of one event id interleave, fail or stop, also when a write takes effect and is
   * reported as an error, at most one notification is inserted for it and at most one of them is answered as
   * not a duplicate.
   */
  lemma {:induction false} AtMostOnce(run: Schedule, n: nat, e: string)
    ensures var w := WorldAt(run, n);
      && (forall i, j | 0 <= i < |w.created| && 0 <= j < |w.created|
            && w.created[i].eventId == e && w.created[j].eventId == e :: i == j)
      && (forall h, k | FirstAcceptance(w, h, e) && FirstAcceptance(w, k, e) :: h == k)
  {
    hide Do;
    Reachable(run, n);
    var w := WorldAt(run, n);
    forall h, k | FirstAcceptance(w, h, e) && FirstAcceptance(w, k, e)
      ensures h == k
    {
      assert HandlerOk(w, h) && HandlerOk(w, k);
    }
  }

  /** An event row keeps its type, payload and signature flag for ever, and its status never moves back. */
  lemma {:induction false} RowsAreStable(run: Schedule, e: string, i: nat, n: nat)
    requires i <= n && e in WorldAt(run, i).rows
    ensures e in WorldAt(run, n).rows && RowKept(WorldAt(run, i).rows[e], WorldAt(run, n).rows[e])
    decreases n
  {
    hide Do, Inv;
    if i < n {
      RowsAreStable(run, e, i, n - 1);
      Reachable(run, n - 1);
      DoKeepsRow(WorldAt(run, n - 1), run.actions(n - 1), e);
    }
  }

  // ----- when every error means that nothing was written -----

  /** No write up to step n took effect and was reported as an error. */
  ghost predicate FailsCleanly(run: Schedule, n: nat) {
    forall k: nat | k < n && run.actions(k).Proceed? :: !run.actions(k).fate.CommitsThenFails?
  }

  /** The row of a handler that is about to mark it failed has not been marked yet. */
  ghost predicate Unmarked(w: World) {
    forall h | h in w.handlers && w.handlers[h].stage.MarkingFailed? ::
      var e := w.handlers[h].delivery.EventId(); e in w.rows && w.rows[e].status == Received
  }

  lemma UnmarkedKept(w: World, a: Action)
    requires Inv(w) && Unmarked(w) && !(a.Proceed? && a.fate.CommitsThenFails?)
    ensures Unmarked(Do(w, a))
  {
    hide ExtractCustomerId, Notified, HeadersComplete, NotificationFor, CreatedOk, DistinctEvents, RowOk, ToJson;
    if a.Proceed? {
      assert HandlerOk(w, a.handler);
    }
    forall h | h in Do(w, a).handlers && Do(w, a).handlers[h].stage.MarkingFailed?
      ensures var e := Do(w, a).handlers[h].delivery.EventId();
        e in Do(w, a).rows && Do(w, a).rows[e].status == Received
    {
      assert HandlerOk(w, h);
    }
  }

  lemma MarkedStays(w: World, a: Action, e: string)
    requires Inv(w) && Unmarked(w) && e in w.rows && w.rows[e].status != Received
    ensures e in Do(w, a).rows && Do(w, a).rows[e] == w.rows[e]
  {
    hide ExtractCustomerId, Notified, HeadersComplete, NotificationFor, CreatedOk, DistinctEvents, RowOk, ToJson;
    if a.Proceed? {
      assert HandlerOk(w, a.handler);
    }
  }

  lemma {:induction false} UnmarkedAlong(run: Schedule, n: nat)
    requires FailsCleanly(run, n)
    ensures Unmarked(WorldAt(run, n))
  {
    hide Do, Inv;
    if n > 0 {
      UnmarkedAlong(run, n - 1);
      Reachable(run, n - 1);
      UnmarkedKept(WorldAt(run, n - 1), run.actions(n - 1));
    }
  }

  /** Then the status of a row moves once at most: a row that has left Received never changes again. */
  lemma {:induction false} StatusMovesOnce(run: Schedule, e: string, i: nat, n: nat)
    requires i <= n && FailsCleanly(run, n)
    requires e in WorldAt(run, i).rows && WorldAt(run, i).rows[e].status != Received
    ensures e in WorldAt(run, n).rows && WorldAt(run, n).rows[e] == WorldAt(run, i).rows[e]
    decreases n
  {
    hide Do, Inv, Unmarked;
    if i < n {
      StatusMovesOnce(run, e, i, n - 1);
      Reachable(run, n - 1);
      UnmarkedAlong(run, n - 1);
      MarkedStays(WorldAt(run, n - 1), run.actions(n - 1), e);
    }
  }

  /** The number of notifications inserted for an event. */
  function CountFor(created: seq<Created>, e: string): nat {
    if created == [] then 0
    else CountFor(created[..|created| - 1], e) + if created[|created| - 1].eventId == e then 1 else 0
  }

  lemma {:induction false} CountOfDistinct(created: seq<Created>, e: string)
    requires forall i, j | 0 <= i < j < |created| :: created[i].eventId != created[j].eventId
    ensures CountFor(created, e) == if exists i :: 0 <= i < |created| && created[i].eventId == e then 1 else 0
  {
    if created != [] {
      var front := created[..|created| - 1];
      CountOfDistinct(front, e);
      assert forall i | 0 <= i < |front| :: front[i] == created[i];
      assert created[|created| - 1].eventId == e ==> forall i | 0 <= i < |front| :: front[i].eventId != e;
    }
  }

  /**
   * A processed event has exactly one notification if its payload names a customer and none otherwise; an
   * event whose signature was invalid has none and is failed; and every notification carries the customer,
   * type and payload of the row of its event.
   */
  lemma {:induction false} RowsAgreeWithNotifications(run: Schedule, n: nat, e: string)
    requires e in WorldAt(run, n).rows
    ensures var w := WorldAt(run, n);
      var row, customer := w.rows[e], ExtractCustomerId(Some(w.rows[e].payload));
      && (row.status == Processed ==> CountFor(w.created, e) == if customer.Some? then 1 else 0)
      && (!row.signatureValid ==> row.status == Failed && CountFor(w.created, e) == 0)
      && (forall i | 0 <= i < |w.created| && w.created[i].eventId == e ::
            customer.Some? && w.created[i].notification == NotificationFor(customer.value, row.eventType, row.payload))
  {
    hide Do, ExtractCustomerId, NotificationFor, HandlerOk;
    Reachable(run, n);
    var w := WorldAt(run, n);
    assert RowOk(w, e);
    CountOfDistinct(w.created, e);
    forall i | 0 <= i < |w.created| && w.created[i].eventId == e
      ensures ExtractCustomerId(Some(w.rows[e].payload)).Some?
      ensures w.created[i].notification
           == NotificationFor(ExtractCustomerId(Some(w.rows[e].payload)).value, w.rows[e].eventType, w.rows[e].payload)
    {
      assert CreatedOk(w, i);
    }
  }

  /** No notification exists without the row of its event. */
  lemma {:induction false} NotificationsHaveRows(run: Schedule, n: nat, i: nat)
    requires i < |WorldAt(run, n).created|
    ensures WorldAt(run, n).created[i].eventId in WorldAt(run, n).rows
    ensures WorldAt(run, n).rows[WorldAt(run, n).created[i].eventId].signatureValid
  {
    hide Do, ExtractCustomerId, HandlerOk;
    Reachable(run, n);
    var w := WorldAt(run, n);
    assert CreatedOk(w, i) && RowOk(w, w.created[i].eventId);
    assert Notified(w, w.created[i].eventId);
  }

  // ----- only a good signature is acted upon -----

  /** Every header the service asks for is there and not empty. */
  predicate AllHeaders(h: Headers) {
    && (h.signature.Some? && h.signature.value != "")
    && (h.eventType.Some? && h.eventType.value != "")
    && (h.eventId.Some? && h.eventId.value != "")
    && (h.timestamp.Some? && h.timestamp.value != "")
    && (h.requestId.Some? && h.requestId.value != "")
  }

  /** Which deliveries a handler at this stage can have. */
  predicate Deserves(d: Delivery, stage: Stage) {
    match stage
    case Checking => true
    case FindingEvent => AllHeaders(d.headers) && !d.signatureOk
    case InsertingInvalidEvent => AllHeaders(d.headers) && !d.signatureOk
    case Finished(BadRequest) => !AllHeaders(d.headers)
    case Finished(Unauthorized) => AllHeaders(d.headers) && !d.signatureOk
    case _ => AllHeaders(d.headers) && d.signatureOk
  }

  /** The row was inserted for this delivery. */
  predicate InsertedFor(w: World, e: string, h: nat)
    requires e in w.rows
  {
    && h in w.handlers
    && var d := w.handlers[h].delivery;
       && d.EventId() == e && AllHeaders(d.headers) && d.signatureOk == w.rows[e].signatureValid
       && w.rows[e].eventType == d.EventType() && w.rows[e].payload == ToJson(d.payload)
       && !w.handlers[h].stage.Checking? && !w.handlers[h].stage.InsertingEvent?
       && !w.handlers[h].stage.FindingEvent? && !w.handlers[h].stage.InsertingInvalidEvent?
  }

  ghost predicate Signed(w: World) {
    && (forall h | h in w.handlers :: Deserves(w.handlers[h].delivery, w.handlers[h].stage))
    && (forall e | e in w.rows :: exists h :: InsertedFor(w, e, h))
  }

  lemma DoDeserves(w: World, a: Action, h: nat)
    requires h in w.handlers ==> Deserves(w.handlers[h].delivery, w.handlers[h].stage)
    requires h in Do(w, a).handlers
    ensures Deserves(Do(w, a).handlers[h].delivery, Do(w, a).handlers[h].stage)
  {
    hide ExtractCustomerId, NotificationFor, ToJson, Mark, Written;
  }

  lemma InsertedStays(w: World, a: Action, e: string, h: nat)
    requires e in w.rows && InsertedFor(w, e, h)
    ensures e in Do(w, a).rows && InsertedFor(Do(w, a), e, h)
  {
    hide ExtractCustomerId, NotificationFor, ToJson, HeadersComplete;
  }

  lemma NewRowInserted(w: World, a: Action, e: string)
    requires forall h | h in w.handlers :: Deserves(w.handlers[h].delivery, w.handlers[h].stage)
    requires e !in w.rows && e in Do(w, a).rows
    ensures a.Proceed? && InsertedFor(Do(w, a), e, a.handler)
  {
    hide ExtractCustomerId, NotificationFor, ToJson, HeadersComplete;
  }

  lemma SignedKept(w: World, a: Action)
    requires Signed(w)
    ensures Signed(Do(w, a))
  {
    hide Do, Deserves, InsertedFor;
    forall h | h in Do(w, a).handlers
      ensures Deserves(Do(w, a).handlers[h].delivery, Do(w, a).handlers[h].stage)
    {
      DoDeserves(w, a, h);
    }
    forall e | e in Do(w, a).rows
      ensures exists h :: InsertedFor(Do(w, a), e, h)
    {
      if e in w.rows {
        var h :| InsertedFor(w, e, h);
        InsertedStays(w, a, e, h);
      } else {
        NewRowInserted(w, a, e);
      }
    }
  }

  lemma {:induction false} SignedAlong(run: Schedule, n: nat)
    ensures Signed(WorldAt(run, n))
  {
    hide Do, Deserves, InsertedFor;
    if n > 0 {
      SignedAlong(run, n - 1);
      SignedKept(WorldAt(run, n - 1), run.actions(n - 1));
    }
  }

  /**
   * Under every schedule: a delivery that got past the checks, or is answered as accepted, carries all headers
   * and a good signature. A finished delivery is answered 400 exactly without all headers, and 401 exactly with
   * all headers and a bad signature.
   */
  lemma {:induction false} OnlySignedDeliveriesCount(run: Schedule, n: nat, h: nat)
    requires h in WorldAt(run, n).handlers
    ensures var d, stage := WorldAt(run, n).handlers[h].delivery, WorldAt(run, n).handlers[h].stage;
      && (PastInsert(stage) || stage.InsertingEvent? || (stage.Finished? && stage.result.Accepted?) ==>
            AllHeaders(d.headers) && d.signatureOk)
      && (stage.Finished? ==> (stage.result == BadRequest <==> !AllHeaders(d.headers)))
      && (stage.Finished? ==> (stage.result == Unauthorized <==> AllHeaders(d.headers) && !d.signatureOk))
  {
    hide Do;
    SignedAlong(run, n);
  }

  /** The flag of a row says whether the delivery it was inserted for, with its type and payload, was well signed. */
  lemma {:induction false} RowFlagIsSignature(run: Schedule, n: nat, e: string)
    requires e in WorldAt(run, n).rows
    ensures exists h :: InsertedFor(WorldAt(run, n), e, h)
  {
    hide Do, InsertedFor;
    SignedAlong(run, n);
  }

  /** Every notification was inserted for a delivery with all headers and a good signature. */
  lemma {:induction false} NotifiedMeansSigned(run: Schedule, n: nat, i: nat)
    requires i < |WorldAt(run, n).created|
    ensures var w, c := WorldAt(run, n), WorldAt(run, n).created[i];
      exists h :: h in w.handlers && w.handlers[h].delivery.EventId() == c.eventId
        && AllHeaders(w.handlers[h].delivery.headers) && w.handlers[h].delivery.signatureOk
        && ExtractCustomerId(w.handlers[h].delivery.payload) == Some(c.notification.userId)
  {
    hide Do, ExtractCustomerId, HandlerOk, NotificationFor;
    SignedAlong(run, n);
    NotificationsHaveRows(run, n, i);
    Reachable(run, n);
    var w := WorldAt(run, n);
    var e := w.created[i].eventId;
    var h :| InsertedFor(w, e, h);
    StoredPayloadNamesCustomer(w.handlers[h].delivery.payload);
    assert CreatedOk(w, i);
  }

  /** The texts of a notification, letter by letter. */
  lemma NotificationTexts(userId: string, kind: string, payload: Value)
    ensures var n := NotificationFor(userId, kind, payload);
      && n.userId == userId && n.kind == kind && n.payload == payload && n.title == "Reepay " + kind
      && exists spaced :: n.body == "Your " + spaced + " update is available." && |spaced| == |kind|
           && forall i | 0 <= i < |kind| :: spaced[i] == if kind[i] == '.' then ' ' else kind[i]
  {
    assert NotificationFor(userId, kind, payload).body == "Your " + DotsToSpaces(kind) + " update is available.";
  }
}
