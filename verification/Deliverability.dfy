/** When an event can still be delivered, and how it can stop being deliverable without having been delivered. */
module Deliverability {
  import opened Wrappers
  import opened Delivery
  import opened ConsumerLease

  // ----- what every run keeps -----

  predicate TodoStored(w: World, p: Id, k: nat) {
    p in w.publishers && k < |w.publishers[p].todo| ==> w.publishers[p].todo[k] in w.outbox
  }

  predicate TodoDistinct(w: World, p: Id) {
    p in w.publishers ==>
      forall i, j :: 0 <= i < j < |w.publishers[p].todo| ==> w.publishers[p].todo[i] != w.publishers[p].todo[j]
  }

  predicate DeliveryMarked(w: World, m: Id) {
    IsDelivering(w, m) ==> w.messages[m].event in w.marks
  }

  /** Publishers hold stored events, each once, and whoever delivers has marked the event. */
  ghost predicate Sound(w: World) {
    && (forall p, k: nat :: TodoStored(w, p, k))
    && (forall p :: TodoDistinct(w, p))
    && (forall m :: DeliveryMarked(w, m))
  }

  lemma TodoShrinks(w: World, step: Step, p: Id)
    requires p in Apply(w, step).publishers
    ensures var todo := Apply(w, step).publishers[p].todo;
      || todo == []
      || (p in w.publishers && (todo == w.publishers[p].todo || (w.publishers[p].todo != [] && todo == w.publishers[p].todo[1..])))
      || (step.ClaimBatch? && step.publisher == p && todo == step.batch && LegalBatch(w, todo))
  {
    match step
    case MarkPublished(_) =>
    case ReleaseRow(_) =>
    case ClaimBatch(_, _) =>
    case _ =>
  }

  lemma MarksStay(w: World, step: Step, e: Id)
    requires e in w.marks
    ensures e in Apply(w, step).marks
  {
    match step
    case Claim(_, _, _) =>
    case _ =>
  }

  lemma ClaimMarks(w: World, step: Step, e: Id)
    requires step.Claim? && InStage(w, step.message, Received) && w.messages[step.message].event == e
    requires Claimable(w.marks, e, w.now) && !step.storeFails
    ensures e in Apply(w, step).marks
  {
  }

  lemma StepKeepsMarked(w: World, step: Step, m: Id)
    requires DeliveryMarked(w, m)
    ensures DeliveryMarked(Apply(w, step), m)
  {
    if IsDelivering(Apply(w, step), m) {
      WhoDelivers(w, step, m);
      var e := w.messages[m].event;
      if e in w.marks {
        MarksStay(w, step, e);
      } else {
        ClaimMarks(w, step, e);
      }
    }
  }

  lemma RowsKept(w: World, step: Step, e: Id)
    requires e in w.outbox
    ensures e in Apply(w, step).outbox
    ensures w.outbox[e].published ==> Apply(w, step).outbox[e].published
  {
  }

  lemma StepKeepsSound(w: World, step: Step)
    requires Sound(w)
    ensures Sound(Apply(w, step))
  {
    var t := Apply(w, step);
    forall p, k: nat ensures TodoStored(t, p, k) {
      if p in t.publishers && k < |t.publishers[p].todo| {
        TodoShrinks(w, step, p);
        assert TodoStored(w, p, k) && TodoStored(w, p, k + 1);
        RowsKept(w, step, t.publishers[p].todo[k]);
      }
    }
    forall p ensures TodoDistinct(t, p) {
      if p in t.publishers {
        TodoShrinks(w, step, p);
        assert TodoDistinct(w, p);
      }
    }
    forall m ensures DeliveryMarked(t, m) {
      StepKeepsMarked(w, step, m);
    }
  }

  lemma {:induction false} RunKeepsSound(w: World, steps: seq<Step>)
    requires Sound(w)
    ensures Sound(Run(w, steps))
    decreases |steps|
  {
    if steps != [] {
      StepKeepsSound(w, steps[0]);
      RunKeepsSound(Apply(w, steps[0]), steps[1..]);
    }
  }

  // ----- who can still deliver an event -----

  /** The message can be delivered again, or its cut off consumer can still deliver it. */
  predicate CanCarry(w: World, m: Id, e: Id) {
    && m in w.messages && w.messages[m].event == e
    && (w.messages[m].place.CutOff? ==> w.messages[m].place.stage.Received? || w.messages[m].place.stage.Delivering?)
  }

  /** The publisher will get to the event, and has not had it confirmed: everything before it is still to be published. */
  predicate WillPublish(w: World, p: Id, k: nat, e: Id) {
    && p in w.publishers && k < |w.publishers[p].todo| && w.publishers[p].todo[k] == e
    && (k == 0 ==> !w.publishers[p].confirmed)
    && forall j :: 0 <= j < k ==> w.publishers[p].todo[j] in w.outbox && !w.outbox[w.publishers[p].todo[j]].published
  }

  ghost predicate Chance(w: World, e: Id) {
    || e !in w.outbox
    || !w.outbox[e].published
    || (exists m :: CanCarry(w, m, e))
    || (exists p, k :: WillPublish(w, p, k, e))
  }

  predicate ProcessedAfter(w: World, steps: seq<Step>, e: Id) {
    Processed(Run(w, steps).marks, e)
  }

  ghost predicate CanBeProcessed(w: World, e: Id) {
    exists steps :: ProcessedAfter(w, steps, e)
  }

  // ----- without a chance there never is one again -----

  ghost predicate GivenUp(w: World, e: Id) {
    !Processed(w.marks, e) && !Chance(w, e)
  }

  lemma NobodyPublishes(w: World, step: Step, e: Id, p: Id, k: nat)
    requires Sound(w) && e in w.outbox && w.outbox[e].published
    requires WillPublish(Apply(w, step), p, k, e)
    ensures exists i :: WillPublish(w, p, i, e)
  {
    var t := Apply(w, step);
    TodoShrinks(w, step, p);
    var todo := t.publishers[p].todo;
    forall j | 0 <= j < k && todo[j] in w.outbox ensures !w.outbox[todo[j]].published {
      RowsKept(w, step, todo[j]);
    }
    if p in w.publishers && todo == w.publishers[p].todo {
      forall j | 0 <= j < k ensures todo[j] in w.outbox {
        assert TodoStored(w, p, j);
      }
      assert WillPublish(w, p, k, e);
    } else {
      assert WasNext(w, p, todo) by {
        AdvanceMeansMarked(w, step, p);
      }
      forall j | 0 <= j < k + 1 ensures w.publishers[p].todo[j] in w.outbox && !w.outbox[w.publishers[p].todo[j]].published {
        assert TodoStored(w, p, j);
        assert j > 0 ==> w.publishers[p].todo[j] == todo[j - 1];
      }
      assert WillPublish(w, p, k + 1, e);
    }
  }

  /** The publisher's list is what was left of the old one after its first event was marked. */
  predicate WasNext(w: World, p: Id, todo: seq<Id>) {
    && p in w.publishers && w.publishers[p].todo != [] && todo == w.publishers[p].todo[1..]
    && w.publishers[p].todo[0] in w.outbox && !w.outbox[w.publishers[p].todo[0]].published
  }

  lemma AdvanceMeansMarked(w: World, step: Step, p: Id)
    requires p in Apply(w, step).publishers && Apply(w, step).publishers[p].todo != []
    requires !(p in w.publishers && Apply(w, step).publishers[p].todo == w.publishers[p].todo)
    ensures WasNext(w, p, Apply(w, step).publishers[p].todo)
         || (step.ClaimBatch? && step.publisher == p && LegalBatch(w, Apply(w, step).publishers[p].todo))
  {
    match step
    case MarkPublished(_) =>
    case ReleaseRow(_) =>
    case ClaimBatch(_, _) =>
    case _ =>
  }

  lemma NobodyCarries(w: World, step: Step, e: Id, m: Id)
    requires CanCarry(Apply(w, step), m, e)
    ensures (exists n :: CanCarry(w, n, e)) || (exists p :: WillPublish(w, p, 0, e))
  {
    if m in w.messages {
      EventsOfMessagesStay(w, step, m);
      if w.messages[m].place.CutOff? {
        StaysCutOff(w, step, m);
      }
      assert CanCarry(w, m, e);
    } else {
      NewMessages(w, step, m);
      if step.PublishAccepted? {
        assert WillPublish(w, step.publisher, 0, e);
      } else {
        assert CanCarry(w, step.message, e);
      }
    }
  }

  /** A cut off consumer does not get its message back, nor does it start over. */
  lemma StaysCutOff(w: World, step: Step, m: Id)
    requires m in w.messages && m in Apply(w, step).messages && w.messages[m].place.CutOff?
    ensures var t := Apply(w, step);
      && t.messages[m].place.CutOff?
      && (t.messages[m].place.stage.Received? || t.messages[m].place.stage.Delivering? ==>
            w.messages[m].place.stage.Received? || w.messages[m].place.stage.Delivering?)
  {
  }

  lemma NobodyProcesses(w: World, step: Step, e: Id)
    requires Processed(Apply(w, step).marks, e)
    ensures Processed(w.marks, e) || exists m :: CanCarry(w, m, e)
  {
    match step
    case DeliverySucceeds(m, _, _) =>
      assert Processed(w.marks, e) || CanCarry(w, m, e);
    case _ =>
  }

  lemma StaysGivenUp(w: World, step: Step, e: Id)
    requires Sound(w) && GivenUp(w, e)
    ensures GivenUp(Apply(w, step), e)
  {
    var t := Apply(w, step);
    RowsKept(w, step, e);
    if Processed(t.marks, e) {
      NobodyProcesses(w, step, e);
    }
    if m :| CanCarry(t, m, e) {
      NobodyCarries(w, step, e, m);
    }
    if p, k :| WillPublish(t, p, k, e) {
      NobodyPublishes(w, step, e, p, k);
    }
  }

  /** An event without a chance is neither processed nor being delivered in any later state. */
  lemma {:induction false} GivenUpForGood(w: World, steps: seq<Step>, e: Id)
    requires Sound(w) && GivenUp(w, e)
    ensures GivenUp(Run(w, steps), e)
    ensures forall m :: IsDelivering(Run(w, steps), m) ==> Run(w, steps).messages[m].event != e
    decreases |steps|
  {
    if steps == [] {
      forall m | IsDelivering(w, m) ensures w.messages[m].event != e {
        assert !CanCarry(w, m, e);
      }
    } else {
      StepKeepsSound(w, steps[0]);
      StaysGivenUp(w, steps[0], e);
      GivenUpForGood(Apply(w, steps[0]), steps[1..], e);
    }
  }

  // ----- and with one it can be delivered -----

  lemma StepFirst(w: World, step: Step, e: Id)
    requires CanBeProcessed(Apply(w, step), e)
    ensures CanBeProcessed(w, e)
  {
    var steps :| ProcessedAfter(Apply(w, step), steps, e);
    assert ([step] + steps)[1..] == steps;
    assert ProcessedAfter(w, [step] + steps, e);
  }

  lemma Already(w: World, e: Id)
    requires Processed(w.marks, e)
    ensures CanBeProcessed(w, e)
  {
    assert Run(w, []) == w;
    assert ProcessedAfter(w, [], e);
  }

  lemma DelivererSucceeds(w: World, m: Id)
    requires IsDelivering(w, m) && w.messages[m].event in w.marks
    ensures CanBeProcessed(w, w.messages[m].event)
  {
    var success := DeliverySucceeds(m, true, true);
    Already(Apply(w, success), w.messages[m].event);
    StepFirst(w, success, w.messages[m].event);
  }

  /** A consumer that has the message waits for the lease of others to run out, claims and delivers. */
  lemma ReceivedSucceeds(w: World, m: Id)
    requires InStage(w, m, Received)
    ensures CanBeProcessed(w, w.messages[m].event)
  {
    var e := w.messages[m].event;
    if Processed(w.marks, e) {
      Already(w, e);
    } else {
      var wait := Tick(if e in w.marks && w.marks[e].until >= w.now then w.marks[e].until - w.now + 1 else 0);
      var waited := Apply(w, wait);
      assert Claimable(waited.marks, e, waited.now);
      DelivererSucceeds(Apply(waited, Claim(m, false, true)), m);
      StepFirst(waited, Claim(m, false, true), e);
      StepFirst(w, wait, e);
    }
  }

  lemma QueuedSucceeds(w: World, m: Id)
    requires m in w.messages && w.messages[m].place.MainQueue?
    ensures CanBeProcessed(w, w.messages[m].event)
  {
    ReceivedSucceeds(Apply(w, Hand(m, 0)), m);
    StepFirst(w, Hand(m, 0), w.messages[m].event);
  }

  lemma CarrierSucceeds(w: World, m: Id, e: Id)
    requires Sound(w) && CanCarry(w, m, e)
    ensures CanBeProcessed(w, e)
  {
    match w.messages[m].place
    case MainQueue =>
      QueuedSucceeds(w, m);
    case RetryQueue =>
      QueuedSucceeds(Apply(w, RetryExpires(m)), m);
      StepFirst(w, RetryExpires(m), e);
    case Unacked(c, _) =>
      QueuedSucceeds(Apply(w, ConsumerCrash(c)), m);
      StepFirst(w, ConsumerCrash(c), e);
    case CutOff(stage) =>
      if stage.Received? {
        ReceivedSucceeds(w, m);
      } else {
        assert DeliveryMarked(w, m);
        DelivererSucceeds(w, m);
      }
  }

  lemma Unused(s: set<Id>) returns (id: Id)
    ensures forall other :: other in s ==> other < id
    decreases |s|
  {
    if s == {} {
      id := 0;
    } else {
      var other :| other in s;
      var above := Unused(s - {other});
      id := if above > other then above else other + 1;
      assert forall x :: x in s ==> x == other || x in s - {other};
    }
  }

  /** A publisher works through the events before this one, and then publishes it. */
  lemma {:induction false} PublisherSucceeds(w: World, p: Id, k: nat, e: Id)
    requires Sound(w) && WillPublish(w, p, k, e)
    ensures CanBeProcessed(w, e)
    decreases k, !w.publishers[p].confirmed
  {
    var first := w.publishers[p].todo[0];
    if w.publishers[p].confirmed {
      var mark := MarkPublished(p);
      var t := Apply(w, mark);
      StepKeepsSound(w, mark);
      forall j | 0 <= j < k - 1 ensures t.publishers[p].todo[j] in t.outbox && !t.outbox[t.publishers[p].todo[j]].published {
        assert TodoDistinct(w, p) && w.publishers[p].todo[j + 1] != first;
      }
      PublisherSucceeds(t, p, k - 1, e);
      StepFirst(w, mark, e);
    } else {
      var message := Unused(w.messages.Keys);
      var publish := PublishAccepted(p, message, k > 0);
      var t := Apply(w, publish);
      StepKeepsSound(w, publish);
      if k == 0 {
        QueuedSucceeds(t, message);
      } else {
        PublisherSucceeds(t, p, k, e);
      }
      StepFirst(w, publish, e);
    }
  }

  /** An unpublished row waits for its lease to run out, and a new publisher takes it. */
  lemma RowSucceeds(w: World, e: Id)
    requires Sound(w) && e in w.outbox && !w.outbox[e].published
    ensures CanBeProcessed(w, e)
  {
    var row := w.outbox[e];
    var wait := Tick(if row.lease.Some? && row.lease.value >= w.now then row.lease.value - w.now + 1 else 0);
    var p := Unused(w.publishers.Keys);
    var claim := ClaimBatch(p, [e]);
    var waited := Apply(w, wait);
    StepKeepsSound(w, wait);
    StepKeepsSound(waited, claim);
    assert LegalBatch(waited, [e]);
    PublisherSucceeds(Apply(waited, claim), p, 0, e);
    StepFirst(waited, claim, e);
    StepFirst(w, wait, e);
  }

  lemma ChanceSuffices(w: World, e: Id)
    requires Sound(w) && Chance(w, e)
    ensures CanBeProcessed(w, e)
  {
    if e !in w.outbox {
      StepKeepsSound(w, Enqueue(e, 0));
      RowSucceeds(Apply(w, Enqueue(e, 0)), e);
      StepFirst(w, Enqueue(e, 0), e);
    } else if !w.outbox[e].published {
      RowSucceeds(w, e);
    } else if m :| CanCarry(w, m, e) {
      CarrierSucceeds(w, m, e);
    } else {
      var p, k :| WillPublish(w, p, k, e);
      PublisherSucceeds(w, p, k, e);
    }
  }

  /**
    Exactly when an event can still be processed, in every reachable state: it is not yet published, or somebody has
    a copy to deliver, or a publisher will send one. Otherwise it never is, no matter what happens, and it has
    been dead-lettered.
   */
  lemma {:induction false} DeliverableIff(maxRetries: nat, past: seq<Step>, e: Id)
    ensures var w := Run(Initial(maxRetries), past);
      && (CanBeProcessed(w, e) <==> Processed(w.marks, e) || Chance(w, e))
      && (GivenUp(w, e) ==> e in w.dead && forall steps :: !ProcessedAfter(w, steps, e))
  {
    var w := Run(Initial(maxRetries), past);
    RunKeepsSound(Initial(maxRetries), past);
    if Processed(w.marks, e) {
      Already(w, e);
    } else if Chance(w, e) {
      ChanceSuffices(w, e);
    } else {
      forall steps ensures !ProcessedAfter(w, steps, e) {
        GivenUpForGood(w, steps, e);
      }
      NoEventIsLost(maxRetries, past);
      if m :| Live(w, m) && w.messages[m].event == e {
        assert CanCarry(w, m, e);
      }
    }
  }

  /** Once an event is published and no publisher holds it, what decides is whether anybody has a copy to deliver. */
  lemma {:induction false} CopiesDecide(maxRetries: nat, past: seq<Step>, e: Id)
    requires var w := Run(Initial(maxRetries), past);
      && e in w.outbox && w.outbox[e].published && !Processed(w.marks, e)
      && forall p :: p in w.publishers ==> e !in w.publishers[p].todo
    ensures var w := Run(Initial(maxRetries), past);
      CanBeProcessed(w, e) <==> exists m :: CanCarry(w, m, e)
  {
    DeliverableIff(maxRetries, past, e);
  }

  // ----- burial -----

  /** Safe does not mean delivered. A consumer that gets the message while the store works dead-letters its event
      exactly when the retry limit is reached and another consumer's lease is running; its delivery goes on, and may
      yet fail. */
  lemma {:induction false} BuriedIffBusyAtLimit(w: World, m: Id)
    requires RetriesBounded(w) && Connected(w, m) && InStage(w, m, Received) && w.messages[m].event !in w.dead
    ensures var e, t := w.messages[m].event, Apply(Apply(w, Claim(m, false, true)), SettleDead(m, true));
      && (e in t.dead <==>
            w.messages[m].retries == w.maxRetries && !Claimable(w.marks, e, w.now) && !Processed(w.marks, e))
      && (e in t.dead ==>
            forall other :: IsDelivering(w, other) && w.messages[other].event == e ==>
              var u := Apply(t, DeliveryFails(other, true));
              IsDelivering(t, other) && u.dead == t.dead && !Processed(u.marks, e))
  {
    var e, t := w.messages[m].event, Apply(Apply(w, Claim(m, false, true)), SettleDead(m, true));
    if e in t.dead {
      forall other | IsDelivering(w, other) && w.messages[other].event == e
        ensures var u := Apply(t, DeliveryFails(other, true));
          IsDelivering(t, other) && u.dead == t.dead && !Processed(u.marks, e)
      {
      }
    }
  }

  lemma {:induction false} RunThen(w: World, steps: seq<Step>, step: Step, t: World, u: World)
    requires Run(w, steps) == t && Apply(t, step) == u
    ensures Run(w, steps + [step]) == u
    decreases |steps|
  {
    if steps == [] {
      assert [] + [step] == [step] && Run(Apply(w, step), []) == Apply(w, step);
    } else {
      RunThen(Apply(w, steps[0]), steps[1..], step, t, u);
      assert (steps + [step])[0] == steps[0] && (steps + [step])[1..] == steps[1..] + [step];
    }
  }

  // One event published twice: the first confirm is lost in a crash, and the lease runs out.

  const LEASED := World(0, 0, map[0 := Row(false, Some(30), 1, 0)], map[], {}, map[], map[1 := Publisher([0], false)])
  const LEFT := World(31, 0, map[0 := Row(false, Some(30), 1, 0)], map[10 := Message(0, 0, MainQueue)], {}, map[],
                      map[1 := Publisher([], false)])
  const TWICE := World(31, 0, map[0 := Row(true, None, 2, 0)],
                       map[10 := Message(0, 0, MainQueue), 11 := Message(0, 0, MainQueue)], {}, map[],
                       map[1 := Publisher([], false), 2 := Publisher([], false)])
  const HANDED := TWICE.(messages := map[10 := Message(0, 0, Unacked(5, Received)), 11 := Message(0, 0, Unacked(6, Received))])

  const TO_LEASED := [Enqueue(0, 0)] + [ClaimBatch(1, [0])]
  const TO_LEFT := TO_LEASED + [PublishAccepted(1, 10, false)] + [PublisherCrash(1)] + [Tick(31)]
  const TO_TWICE := TO_LEFT + [ClaimBatch(2, [0])] + [PublishAccepted(2, 11, true)] + [MarkPublished(2)]
  const TO_HANDED := TO_TWICE + [Hand(10, 5)] + [Hand(11, 6)]

  lemma ReachesLeased()
    ensures Run(Initial(0), TO_LEASED) == LEASED
  {
    var w := Initial(0).(outbox := map[0 := Row(false, None, 0, 0)]);
    assert [] + [Enqueue(0, 0)] == [Enqueue(0, 0)];
    RunThen(Initial(0), [], Enqueue(0, 0), Initial(0), w);
    RunThen(Initial(0), [Enqueue(0, 0)], ClaimBatch(1, [0]), w, LEASED);
  }

  lemma ReachesLeft()
    ensures Run(Initial(0), TO_LEFT) == LEFT
  {
    ReachesLeased();
    var stored := LEASED.(messages := map[10 := Message(0, 0, MainQueue)]);
    var crashed := stored.(publishers := map[1 := Publisher([], false)]);
    RunThen(Initial(0), TO_LEASED, PublishAccepted(1, 10, false), LEASED, stored);
    RunThen(Initial(0), TO_LEASED + [PublishAccepted(1, 10, false)], PublisherCrash(1), stored, crashed);
    RunThen(Initial(0), TO_LEASED + [PublishAccepted(1, 10, false)] + [PublisherCrash(1)], Tick(31), crashed, LEFT);
  }

  lemma MarkedTwice(stored: World)
    requires stored.now == 31 && stored.maxRetries == 0 && stored.outbox == map[0 := Row(false, Some(61), 2, 0)]
    requires stored.messages == TWICE.messages && stored.dead == {} && stored.marks == map[]
    requires stored.publishers == map[1 := Publisher([], false), 2 := Publisher([0], true)]
    ensures Apply(stored, MarkPublished(2)) == TWICE
  {
    assert [0][1..] == [];
  }

  lemma ReachesTwice()
    ensures Run(Initial(0), TO_TWICE) == TWICE
  {
    ReachesLeft();
    var leased := LEFT.(outbox := map[0 := Row(false, Some(61), 2, 0)],
                        publishers := map[1 := Publisher([], false), 2 := Publisher([0], false)]);
    var stored := leased.(messages := map[10 := Message(0, 0, MainQueue), 11 := Message(0, 0, MainQueue)],
                          publishers := map[1 := Publisher([], false), 2 := Publisher([0], true)]);
    MarkedTwice(stored);
    RunThen(Initial(0), TO_LEFT, ClaimBatch(2, [0]), LEFT, leased);
    RunThen(Initial(0), TO_LEFT + [ClaimBatch(2, [0])], PublishAccepted(2, 11, true), leased, stored);
    RunThen(Initial(0), TO_LEFT + [ClaimBatch(2, [0])] + [PublishAccepted(2, 11, true)], MarkPublished(2), stored, TWICE);
  }

  lemma ReachesHanded()
    ensures Run(Initial(0), TO_HANDED) == HANDED
  {
    ReachesTwice();
    var one := TWICE.(messages := map[10 := Message(0, 0, Unacked(5, Received)), 11 := Message(0, 0, MainQueue)]);
    RunThen(Initial(0), TO_TWICE, Hand(10, 5), TWICE, one);
    RunThen(Initial(0), TO_TWICE + [Hand(10, 5)], Hand(11, 6), one, HANDED);
  }

  const ONE_CLAIMED := HANDED.(
    messages := map[10 := Message(0, 0, Unacked(5, Delivering(31))), 11 := Message(0, 0, Unacked(6, Received))],
    marks := map[0 := Mark(151, false, 1)])
  const OTHER_BUSY := ONE_CLAIMED.(
    messages := map[10 := Message(0, 0, Unacked(5, Delivering(31))), 11 := Message(0, 0, Unacked(6, RetryDue))])
  const BURIED := OTHER_BUSY.(
    messages := map[10 := Message(0, 0, Unacked(5, Delivering(31))), 11 := Message(0, 0, Unacked(6, AckDue))], dead := {0})

  const FAILED := BURIED.(
    messages := map[10 := Message(0, 0, Unacked(5, RetryDue)), 11 := Message(0, 0, Unacked(6, AckDue))],
    marks := map[0 := Mark(31, false, 1)])
  const BOTH_BURIED := FAILED.(
    messages := map[10 := Message(0, 0, Unacked(5, AckDue)), 11 := Message(0, 0, Unacked(6, AckDue))])
  const ONE_LEFT := FAILED.(messages := map[11 := Message(0, 0, Unacked(6, AckDue))])
  const NONE_LEFT := FAILED.(messages := map[])

  const TO_BUSY := TO_HANDED + [Claim(10, false, true)] + [Claim(11, false, true)]
  const TO_BURIED := TO_BUSY + [SettleDead(11, true)]
  const TO_BOTH := TO_BURIED + [DeliveryFails(10, true)] + [SettleDead(10, true)]
  const TO_NONE := TO_BOTH + [Ack(10)] + [Ack(11)]

  lemma FirstClaims()
    ensures Apply(HANDED, Claim(10, false, true)) == ONE_CLAIMED
  {
  }

  lemma SecondFindsBusy()
    ensures Apply(ONE_CLAIMED, Claim(11, false, true)) == OTHER_BUSY
  {
  }

  lemma ReachesBusy()
    ensures Run(Initial(0), TO_BUSY) == OTHER_BUSY
  {
    ReachesHanded();
    FirstClaims();
    SecondFindsBusy();
    RunThen(Initial(0), TO_HANDED, Claim(10, false, true), HANDED, ONE_CLAIMED);
    RunThen(Initial(0), TO_HANDED + [Claim(10, false, true)], Claim(11, false, true), ONE_CLAIMED, OTHER_BUSY);
  }

  lemma FirstBurial()
    ensures Apply(OTHER_BUSY, SettleDead(11, true)) == BURIED
  {
  }

  /** So the burial happens: with the retry limit 0, one consumer claims one copy, the other finds the event leased and
      dead-letters it during the delivery. */
  lemma {:induction false} BurialOccurs()
    ensures Run(Initial(0), TO_BURIED) == BURIED
    ensures 0 in BURIED.dead && !Processed(BURIED.marks, 0) && IsDelivering(BURIED, 10)
  {
    ReachesBusy();
    FirstBurial();
    RunThen(Initial(0), TO_BUSY, SettleDead(11, true), OTHER_BUSY, BURIED);
  }

  lemma DeliveryMayFail()
    ensures Apply(BURIED, DeliveryFails(10, true)) == FAILED
  {
  }

  lemma SecondBurial()
    ensures Apply(FAILED, SettleDead(10, true)) == BOTH_BURIED
  {
  }

  lemma FirstAcknowledged()
    ensures Apply(BOTH_BURIED, Ack(10)) == ONE_LEFT
  {
  }

  lemma SecondAcknowledged()
    ensures Apply(ONE_LEFT, Ack(11)) == NONE_LEFT
  {
  }

  lemma ReachesBoth()
    ensures Run(Initial(0), TO_BOTH) == BOTH_BURIED
  {
    BurialOccurs();
    DeliveryMayFail();
    SecondBurial();
    RunThen(Initial(0), TO_BURIED, DeliveryFails(10, true), BURIED, FAILED);
    RunThen(Initial(0), TO_BURIED + [DeliveryFails(10, true)], SettleDead(10, true), FAILED, BOTH_BURIED);
  }

  lemma ReachesNone()
    ensures Run(Initial(0), TO_NONE) == NONE_LEFT
  {
    ReachesBoth();
    FirstAcknowledged();
    SecondAcknowledged();
    RunThen(Initial(0), TO_BOTH, Ack(10), BOTH_BURIED, ONE_LEFT);
    RunThen(Initial(0), TO_BOTH + [Ack(10)], Ack(11), ONE_LEFT, NONE_LEFT);
  }

  /** And the attempt under way may fail and its copy be dead-lettered as well: the event was published, and no later
      state whatsoever has it processed or under delivery. */
  lemma {:induction false} NeverDeliveredOccurs(steps: seq<Step>)
    ensures Run(Initial(0), TO_NONE) == NONE_LEFT
    ensures 0 in NONE_LEFT.outbox && NONE_LEFT.outbox[0].published && 0 in NONE_LEFT.dead
    ensures var w := Run(NONE_LEFT, steps);
      !Processed(w.marks, 0) && forall m :: IsDelivering(w, m) ==> w.messages[m].event != 0
  {
    ReachesNone();
    RunKeepsSound(Initial(0), TO_NONE);
    assert GivenUp(NONE_LEFT, 0);
    GivenUpForGood(NONE_LEFT, steps, 0);
  }
}
