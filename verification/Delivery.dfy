/**
  The outbox, the broker and the notification consumers as one machine: publishers and consumers that may crash at
  any moment, confirms and connections that may be lost, copies that may be delivered again (outbox.go, rabbitmq.go,
  store.go).
 */
module Delivery {
  import opened Wrappers

  type Id = nat

  const PUBLISH_LEASE := 30
  const DEFAULT_BATCH := 25
  const PROCESSING_LEASE := 120

  /** An outbox row. */
  datatype Row = Row(published: bool, lease: Option<int>, attempts: nat, created: int)

  /** A row of notification.processed_events. */
  datatype Mark = Mark(until: int, processed: bool, attempts: nat)

  /** How far a consumer is with a message. */
  datatype Stage =
    | Received
    | Delivering(since: int)
    | RetryDue
    | DeadDue
    | AckDue

  /** A cut off message has been taken back by the broker, which holds it under another id, because the connection
      dropped; its consumer does not know and goes on. */
  datatype Place = MainQueue | RetryQueue | Unacked(consumer: Id, stage: Stage) | CutOff(stage: Stage)

  /** A copy of an event; `retries` is its x-retry-count header. */
  datatype Message = Message(event: Id, retries: nat, place: Place)

  /** The events a publisher has leased and not yet dealt with; `confirmed` says that the first one was confirmed. */
  datatype Publisher = Publisher(todo: seq<Id>, confirmed: bool)

  datatype World = World(
    now: int, maxRetries: nat, outbox: map<Id, Row>, messages: map<Id, Message>, dead: set<Id>,
    marks: map<Id, Mark>, publishers: map<Id, Publisher>)

  // ----- rows -----

  predicate Publishable(row: Row, now: int) {
    !row.published && (row.lease.None? || row.lease.value < now)
  }

  function Leased(row: Row, now: int): Row {
    row.(lease := Some(now + PUBLISH_LEASE), attempts := row.attempts + 1)
  }

  /** The upsert of Claim takes effect: no row yet, or an unprocessed one whose lease has expired. */
  predicate Claimable(marks: map<Id, Mark>, event: Id, now: int) {
    event !in marks || (!marks[event].processed && marks[event].until < now)
  }

  function ClaimedMark(marks: map<Id, Mark>, event: Id, now: int): Mark {
    Mark(now + PROCESSING_LEASE, false, if event in marks then marks[event].attempts + 1 else 1)
  }

  predicate Processed(marks: map<Id, Mark>, event: Id) {
    event in marks && marks[event].processed
  }

  /** A failed delivery gives the lease back; a processed row is left alone. */
  function Release(marks: map<Id, Mark>, event: Id, now: int): map<Id, Mark> {
    if event in marks && !marks[event].processed then marks[event := marks[event].(until := now)] else marks
  }

  function MarkProcessed(marks: map<Id, Mark>, event: Id, now: int): map<Id, Mark> {
    if event in marks && !marks[event].processed
    then marks[event := marks[event].(processed := true, until := now)] else marks
  }

  function RetryCount(m: Message): nat {
    m.retries
  }

  /** A consumer works on the message, or has it on its list. */
  predicate Handled(m: Message) {
    m.place.Unacked? || m.place.CutOff?
  }

  function At(m: Message, stage: Stage): Message {
    if Handled(m) then m.(place := m.place.(stage := stage)) else m
  }

  predicate InStage(w: World, m: Id, stage: Stage) {
    m in w.messages && Handled(w.messages[m]) && w.messages[m].place.stage == stage
  }

  predicate IsDelivering(w: World, m: Id) {
    m in w.messages && Handled(w.messages[m]) && w.messages[m].place.stage.Delivering?
  }

  /** The consumer of the message can still settle it with the broker. */
  predicate Connected(w: World, m: Id) {
    m in w.messages && w.messages[m].place.Unacked?
  }

  // ----- steps -----

  // ConnectionLost: the broker takes a message back, and holds it as `again`, while its consumer goes on. Abandon: the
  // calls of a cut off consumer to the broker fail, and it turns to its next message.

  datatype Step =
    | Tick(elapsed: nat)
    | Enqueue(event: Id, created: int)
    | ClaimBatch(publisher: Id, batch: seq<Id>)
    | PublishAccepted(publisher: Id, message: Id, observed: bool)
    | PublishLost(publisher: Id)
    | MarkPublished(publisher: Id)
    | ReleaseRow(publisher: Id)
    | PublisherCrash(publisher: Id)
    | Hand(message: Id, consumer: Id)
    | RetryExpires(message: Id)
    | ConsumerCrash(consumer: Id)
    | ConnectionLost(message: Id, again: Id)
    | Abandon(message: Id)
    | Reject(message: Id)
    | Claim(message: Id, storeFails: bool, recorded: bool)
    | DeliveryFails(message: Id, released: bool)
    | DeliverySucceeds(message: Id, stored: bool, reported: bool)
    | BadPayload(message: Id, released: bool)
    | SettleRetry(message: Id, copy: Id, accepted: bool)
    | SettleDead(message: Id, accepted: bool)
    | Ack(message: Id)

  function SetMessage(w: World, id: Id, m: Message): World {
    w.(messages := w.messages[id := m])
  }

  function LeaseAll(outbox: map<Id, Row>, batch: seq<Id>, now: int): map<Id, Row> {
    map e | e in outbox :: if e in batch then Leased(outbox[e], now) else outbox[e]
  }

  /** Events that a batch may contain: publishable, each at most once. */
  predicate LegalBatch(w: World, batch: seq<Id>) {
    && |batch| <= 100
    && (forall i :: 0 <= i < |batch| ==> batch[i] in w.outbox && Publishable(w.outbox[batch[i]], w.now))
    && (forall i, j :: 0 <= i < j < |batch| ==> batch[i] != batch[j])
  }

  /** The publisher holds a leased event whose publication it has not confirmed (or has). */
  predicate Holds(w: World, p: Id, confirmed: bool) {
    p in w.publishers && w.publishers[p].todo != [] && w.publishers[p].confirmed == confirmed
  }

  function Drop(w: World, p: Id): World {
    w.(publishers := w.publishers[p := Publisher([], false)])
  }

  function Apply(w: World, step: Step): World {
    match step
    case Tick(elapsed) => w.(now := w.now + elapsed)
    case Enqueue(event, created) =>
      if event in w.outbox then w else w.(outbox := w.outbox[event := Row(false, None, 0, created)])
    case ClaimBatch(p, batch) =>
      if !LegalBatch(w, batch) || (p in w.publishers && w.publishers[p].todo != []) then w
      else w.(outbox := LeaseAll(w.outbox, batch, w.now), publishers := w.publishers[p := Publisher(batch, false)])
    case PublishAccepted(p, message, observed) =>
      if !Holds(w, p, false) || message in w.messages then w
      else
        var stored := SetMessage(w, message, Message(w.publishers[p].todo[0], 0, MainQueue));
        if observed then stored.(publishers := w.publishers[p := w.publishers[p].(confirmed := true)]) else stored
    case PublishLost(p) => w
    case MarkPublished(p) =>
      if !Holds(w, p, true) then w
      else
        var e := w.publishers[p].todo[0];
        if e !in w.outbox || w.outbox[e].published then Drop(w, p)
        else w.(outbox := w.outbox[e := w.outbox[e].(published := true, lease := None)],
                publishers := w.publishers[p := Publisher(w.publishers[p].todo[1..], false)])
    case ReleaseRow(p) =>
      if !Holds(w, p, false) then w
      else
        var e := w.publishers[p].todo[0];
        if e in w.outbox && !w.outbox[e].published
        then Drop(w, p).(outbox := w.outbox[e := w.outbox[e].(lease := Some(w.now + 1))])
        else Drop(w, p)
    case PublisherCrash(p) => Drop(w, p)
    case Hand(m, c) =>
      if m in w.messages && w.messages[m].place.MainQueue?
      then SetMessage(w, m, w.messages[m].(place := Unacked(c, Received))) else w
    case RetryExpires(m) =>
      if m in w.messages && w.messages[m].place.RetryQueue? then SetMessage(w, m, w.messages[m].(place := MainQueue)) else w
    case ConsumerCrash(c) =>
      w.(messages := map m | m in w.messages ::
           if w.messages[m].place.Unacked? && w.messages[m].place.consumer == c
           then w.messages[m].(place := MainQueue) else w.messages[m])
    case ConnectionLost(m, again) =>
      if !Connected(w, m) || again in w.messages then w
      else SetMessage(SetMessage(w, m, w.messages[m].(place := CutOff(w.messages[m].place.stage))), again,
                      w.messages[m].(place := MainQueue))
    case Abandon(m) =>
      if m in w.messages && w.messages[m].place.CutOff? then w.(messages := w.messages - {m}) else w
    case Reject(m) => if InStage(w, m, Received) then SetMessage(w, m, At(w.messages[m], DeadDue)) else w
    case Claim(m, storeFails, recorded) =>
      if !InStage(w, m, Received) then w
      else
        var e := w.messages[m].event;
        if storeFails then
          SetMessage(w, m, At(w.messages[m], RetryDue))
          .(marks := if recorded && Claimable(w.marks, e, w.now) then w.marks[e := ClaimedMark(w.marks, e, w.now)] else w.marks)
        else if Claimable(w.marks, e, w.now) then
          SetMessage(w, m, At(w.messages[m], Delivering(w.now))).(marks := w.marks[e := ClaimedMark(w.marks, e, w.now)])
        else SetMessage(w, m, At(w.messages[m], if Processed(w.marks, e) then AckDue else RetryDue))
    case DeliveryFails(m, released) =>
      if !IsDelivering(w, m) then w
      else SetMessage(w, m, At(w.messages[m], RetryDue))
           .(marks := if released then Release(w.marks, w.messages[m].event, w.now) else w.marks)
    case DeliverySucceeds(m, stored, reported) =>
      if !IsDelivering(w, m) then w
      else
        var e := w.messages[m].event;
        var first := e in w.marks && !w.marks[e].processed;
        SetMessage(w, m, At(w.messages[m], if stored && reported && first then AckDue else RetryDue))
        .(marks := if stored then MarkProcessed(w.marks, e, w.now) else w.marks)
    case BadPayload(m, released) =>
      if !IsDelivering(w, m) then w
      else SetMessage(w, m, At(w.messages[m], DeadDue))
           .(marks := if released then Release(w.marks, w.messages[m].event, w.now) else w.marks)
    case SettleRetry(m, copy, accepted) =>
      if !Connected(w, m) || !InStage(w, m, RetryDue) || RetryCount(w.messages[m]) >= w.maxRetries
         || copy in w.messages then w
      else if accepted then
        SetMessage(SetMessage(w, m, At(w.messages[m], AckDue)), copy,
                   Message(w.messages[m].event, RetryCount(w.messages[m]) + 1, RetryQueue))
      else SetMessage(w, m, w.messages[m].(place := MainQueue))
    case SettleDead(m, accepted) =>
      if !Connected(w, m)
         || (!InStage(w, m, DeadDue) && !(InStage(w, m, RetryDue) && RetryCount(w.messages[m]) >= w.maxRetries)) then w
      else if accepted then SetMessage(w, m, At(w.messages[m], AckDue)).(dead := w.dead + {w.messages[m].event})
      else SetMessage(w, m, w.messages[m].(place := MainQueue))
    case Ack(m) =>
      if Connected(w, m) && InStage(w, m, AckDue) then w.(messages := w.messages - {m}) else w
  }

  function Run(w: World, steps: seq<Step>): World
    decreases |steps|
  {
    if steps == [] then w else Run(Apply(w, steps[0]), steps[1..])
  }

  function Initial(maxRetries: nat): World {
    World(0, maxRetries, map[], map[], {}, map[], map[])
  }

  // ----- nothing is lost -----

  /** The broker holds the message and will deliver it, or deliver it again, unless something better happens first:
      a message of which only the acknowledgement is outstanding does not count. */
  predicate Live(w: World, m: Id) {
    m in w.messages && (Handled(w.messages[m]) ==> Connected(w, m) && !w.messages[m].place.stage.AckDue?)
  }

  ghost predicate Held(w: World, event: Id) {
    exists m :: Live(w, m) && w.messages[m].event == event
  }

  ghost predicate Safe(w: World, event: Id) {
    Processed(w.marks, event) || event in w.dead || Held(w, event)
  }

  ghost predicate PublishedSafe(w: World) {
    forall e :: e in w.outbox && w.outbox[e].published ==> Safe(w, e)
  }

  ghost predicate ConfirmedSafe(w: World) {
    forall p :: Holds(w, p, true) ==> Safe(w, w.publishers[p].todo[0])
  }

  predicate RetriesBounded(w: World) {
    forall m :: m in w.messages ==> w.messages[m].retries <= w.maxRetries
  }

  ghost predicate Inv(w: World) {
    PublishedSafe(w) && ConfirmedSafe(w) && RetriesBounded(w)
  }

  /** Every step keeps an event safe: a message leaves the live ones only for a live copy, the dead-letter
      queue, or a processed event. */
  lemma StepKeepsSafe(w: World, step: Step, e: Id)
    requires Safe(w, e)
    ensures Safe(Apply(w, step), e)
  {
    if !Processed(w.marks, e) && e !in w.dead {
      var m :| Live(w, m) && w.messages[m].event == e;
      LiveKeepsSafe(w, step, m);
    } else {
      ProcessedStays(w, step, e);
    }
  }

  lemma LiveKeepsSafe(w: World, step: Step, m: Id)
    requires Live(w, m)
    ensures Safe(Apply(w, step), w.messages[m].event)
  {
    var t, e := Apply(w, step), w.messages[m].event;
    if step.SettleRetry? && t != w && step.message == m && step.accepted {
      assert Live(t, step.copy) && t.messages[step.copy].event == e;
    } else if step.ConnectionLost? && t != w && step.message == m {
      assert Live(t, step.again) && t.messages[step.again].event == e;
    } else if Live(t, m) {
      EventsOfMessagesStay(w, step, m);
      assert t.messages[m].event == e;
    } else {
      LeavingLive(w, step, m);
    }
  }

  lemma EventsOfMessagesStay(w: World, step: Step, m: Id)
    requires m in w.messages && m in Apply(w, step).messages
    ensures Apply(w, step).messages[m].event == w.messages[m].event
    ensures Apply(w, step).messages[m].retries == w.messages[m].retries
  {
  }

  /** The only ways in which a copy comes into being. */
  lemma NewMessages(w: World, step: Step, m: Id)
    requires m in Apply(w, step).messages && m !in w.messages
    ensures var copy := Apply(w, step).messages[m];
      || (step.PublishAccepted? && step.message == m && Holds(w, step.publisher, false)
          && copy == Message(w.publishers[step.publisher].todo[0], 0, MainQueue))
      || (step.SettleRetry? && step.copy == m && InStage(w, step.message, RetryDue)
          && w.messages[step.message].retries < w.maxRetries
          && copy == Message(w.messages[step.message].event, w.messages[step.message].retries + 1, RetryQueue))
      || (step.ConnectionLost? && step.again == m && Connected(w, step.message)
          && copy == w.messages[step.message].(place := MainQueue))
  {
  }

  lemma LimitStays(w: World, step: Step)
    ensures Apply(w, step).maxRetries == w.maxRetries
  {
  }

  lemma ProcessedStays(w: World, step: Step, e: Id)
    ensures Processed(w.marks, e) ==> Processed(Apply(w, step).marks, e)
    ensures w.dead <= Apply(w, step).dead
  {
  }

  /** The only ways in which a message stops being live, other than through a retry copy. */
  lemma LeavingLive(w: World, step: Step, m: Id)
    requires Live(w, m) && !Live(Apply(w, step), m)
    requires !(step.SettleRetry? && step.message == m && step.accepted) && !(step.ConnectionLost? && step.message == m)
    ensures Processed(Apply(w, step).marks, w.messages[m].event) || w.messages[m].event in Apply(w, step).dead
  {
    match step
    case Claim(_, _, _) =>
    case DeliverySucceeds(_, _, _) =>
    case SettleDead(_, _) =>
    case _ =>
  }

  lemma StepKeepsRetries(w: World, step: Step)
    requires RetriesBounded(w)
    ensures RetriesBounded(Apply(w, step))
  {
    LimitStays(w, step);
    forall m | m in Apply(w, step).messages ensures Apply(w, step).messages[m].retries <= w.maxRetries {
      if m in w.messages {
        EventsOfMessagesStay(w, step, m);
      } else {
        NewMessages(w, step, m);
      }
    }
  }

  /** A row becomes published only when its publisher had seen the confirm. */
  lemma NewlyPublished(w: World, step: Step, e: Id)
    requires e in Apply(w, step).outbox && Apply(w, step).outbox[e].published
    ensures e in w.outbox
    ensures w.outbox[e].published || (step.MarkPublished? && Holds(w, step.publisher, true) && w.publishers[step.publisher].todo[0] == e)
  {
    match step
    case MarkPublished(p) =>
    case ReleaseRow(p) =>
    case ClaimBatch(p, batch) =>
    case _ =>
  }

  /** A publisher sees a confirm only for a message that the broker has stored. */
  lemma NewlyConfirmed(w: World, step: Step, p: Id)
    requires Holds(Apply(w, step), p, true)
    ensures var e := Apply(w, step).publishers[p].todo[0];
      (Holds(w, p, true) && w.publishers[p].todo[0] == e) || Held(Apply(w, step), e)
  {
    var t := Apply(w, step);
    if step.PublishAccepted? && t != w && step.publisher == p {
      assert Live(t, step.message);
    } else {
      ConfirmedBefore(w, step, p);
    }
  }

  lemma ConfirmedBefore(w: World, step: Step, p: Id)
    requires Holds(Apply(w, step), p, true)
    requires !(step.PublishAccepted? && Apply(w, step) != w && step.publisher == p)
    ensures Holds(w, p, true) && w.publishers[p].todo[0] == Apply(w, step).publishers[p].todo[0]
  {
  }

  lemma StepKeeps(w: World, step: Step)
    requires Inv(w)
    ensures Inv(Apply(w, step))
  {
    var t := Apply(w, step);
    StepKeepsRetries(w, step);
    forall e | e in t.outbox && t.outbox[e].published ensures Safe(t, e) {
      NewlyPublished(w, step, e);
      StepKeepsSafe(w, step, e);
    }
    forall p | Holds(t, p, true) ensures Safe(t, t.publishers[p].todo[0]) {
      NewlyConfirmed(w, step, p);
      if !Held(t, t.publishers[p].todo[0]) {
        StepKeepsSafe(w, step, t.publishers[p].todo[0]);
      }
    }
  }

  lemma {:induction false} RunKeeps(w: World, steps: seq<Step>)
    requires Inv(w)
    ensures Inv(Run(w, steps))
    decreases |steps|
  {
    if steps != [] {
      StepKeeps(w, steps[0]);
      RunKeeps(Apply(w, steps[0]), steps[1..]);
    }
  }

  /** Through crashes, expired leases, ambiguous confirms and redeliveries, every committed event is still to be
      published, or held by the broker, or processed, or dead-lettered; no copy exceeds the retry limit. */
  lemma {:induction false} NoEventIsLost(maxRetries: nat, steps: seq<Step>)
    ensures var w := Run(Initial(maxRetries), steps);
      && (forall e :: e in w.outbox ==> !w.outbox[e].published || Held(w, e) || Processed(w.marks, e) || e in w.dead)
      && (forall m :: m in w.messages ==> w.messages[m].retries <= w.maxRetries)
  {
    RunKeeps(Initial(maxRetries), steps);
  }

  /** Committed rows are never deleted, so the statement above covers every event that was ever enqueued. */
  lemma {:induction false} RowsStay(w: World, steps: seq<Step>, e: Id)
    requires e in w.outbox
    ensures e in Run(w, steps).outbox
    ensures w.outbox[e].published ==> Run(w, steps).outbox[e].published
    decreases |steps|
  {
    if steps != [] {
      RowsStay(Apply(w, steps[0]), steps[1..], e);
    }
  }

  /** Exactly when a failed attempt is repeated: below the limit a retry copy with a strictly higher count is made
      and never a dead letter; at the limit it is the other way round. */
  lemma {:induction false} RetryOrDeadLetter(w: World, m: Id, copy: Id)
    requires RetriesBounded(w) && Connected(w, m) && InStage(w, m, RetryDue) && copy !in w.messages
    ensures var e, n := w.messages[m].event, w.messages[m].retries;
      var retried, buried := Apply(w, SettleRetry(m, copy, true)), Apply(w, SettleDead(m, true));
      if n < w.maxRetries then
        copy in retried.messages && retried.messages[copy] == Message(e, n + 1, RetryQueue) && buried == w
      else
        n == w.maxRetries && retried == w && e in buried.dead
  {
  }

  /** An unpublished row is never stuck behind a crashed publisher: once its lease has passed it can be claimed. */
  lemma UnpublishedIsClaimable(w: World, e: Id, p: Id, elapsed: nat)
    requires e in w.outbox && !w.outbox[e].published && p !in w.publishers
    requires w.outbox[e].lease.Some? ==> w.outbox[e].lease.value < w.now + elapsed
    ensures var t := Apply(Apply(w, Tick(elapsed)), ClaimBatch(p, [e]));
      p in t.publishers && t.publishers[p].todo == [e] && t.outbox[e].lease == Some(w.now + elapsed + 30)
  {
  }
}
