/** The processing lease: one consumer at a time delivers an event, and none after it was processed. */
module ConsumerLease {
  import opened Wrappers
  import opened Delivery

  function Since(w: World, m: Id): int
    requires IsDelivering(w, m)
  {
    w.messages[m].place.stage.since
  }

  /** Every delivery under way is settled before its lease can run out. */
  ghost predicate Prompt(w: World) {
    forall m :: IsDelivering(w, m) ==> w.now <= Since(w, m) + PROCESSING_LEASE
  }

  ghost predicate PromptRun(w: World, steps: seq<Step>)
    decreases |steps|
  {
    Prompt(w) && (steps == [] || PromptRun(Apply(w, steps[0]), steps[1..]))
  }

  /** Whoever delivers holds the current, unexpired-by-construction lease of an unprocessed event. */
  ghost predicate HoldsLease(w: World, m: Id)
    requires IsDelivering(w, m)
  {
    var e := w.messages[m].event;
    e in w.marks && !w.marks[e].processed && w.marks[e].until == Since(w, m) + PROCESSING_LEASE
  }

  predicate BothDeliver(w: World, m: Id, n: Id) {
    IsDelivering(w, m) && IsDelivering(w, n) && w.messages[m].event == w.messages[n].event
  }

  ghost predicate LeaseInv(w: World) {
    && (forall m :: IsDelivering(w, m) ==> HoldsLease(w, m))
    && (forall m, n :: BothDeliver(w, m, n) ==> m == n)
  }

  /** The same claim to the same event, although the connection may have dropped in between. */
  predicate SameDelivery(w: World, t: World, m: Id) {
    && IsDelivering(w, m) && IsDelivering(t, m) && w.messages[m].event == t.messages[m].event
    && Since(w, m) == Since(t, m)
  }

  /** A delivery that is under way after a step was under way before, or has just been granted. */
  lemma WhoDelivers(w: World, step: Step, m: Id)
    requires IsDelivering(Apply(w, step), m)
    ensures m in w.messages && Apply(w, step).messages[m].event == w.messages[m].event
    ensures SameDelivery(w, Apply(w, step), m)
         || (step.Claim? && step.message == m && Claimable(w.marks, w.messages[m].event, w.now) && !step.storeFails)
  {
    match step
    case Claim(_, _, _) =>
    case SettleRetry(_, _, _) =>
    case SettleDead(_, _) =>
    case ConsumerCrash(_) =>
    case _ =>
  }

  /** A step that changes an event's mark either claims it, or ends the delivery that holds it. */
  lemma WhoWritesMark(w: World, step: Step, e: Id)
    requires e in w.marks && (e !in Apply(w, step).marks || Apply(w, step).marks[e] != w.marks[e])
    ensures (step.Claim? && Claimable(w.marks, e, w.now))
         || ((step.DeliveryFails? || step.DeliverySucceeds? || step.BadPayload?)
             && IsDelivering(w, step.message) && w.messages[step.message].event == e && !IsDelivering(Apply(w, step), step.message))
  {
    match step
    case Claim(_, _, _) =>
    case DeliveryFails(_, _) =>
    case DeliverySucceeds(_, _, _) =>
    case BadPayload(_, _) =>
    case _ =>
  }

  lemma StepKeepsLease(w: World, step: Step)
    requires LeaseInv(w) && Prompt(w)
    ensures LeaseInv(Apply(w, step))
  {
    var t := Apply(w, step);
    forall m | IsDelivering(t, m) ensures HoldsLease(t, m) {
      WhoDelivers(w, step, m);
      if SameDelivery(w, t, m) {
        KeepsLease(w, step, m);
      }
    }
    forall m, n | BothDeliver(t, m, n) ensures m == n {
      WhoDelivers(w, step, m);
      WhoDelivers(w, step, n);
      assert IsDelivering(w, m) && IsDelivering(w, n) ==> BothDeliver(w, m, n);
    }
  }

  lemma KeepsLease(w: World, step: Step, m: Id)
    requires LeaseInv(w) && Prompt(w)
    requires SameDelivery(w, Apply(w, step), m)
    ensures HoldsLease(Apply(w, step), m)
  {
    var t, e := Apply(w, step), w.messages[m].event;
    assert HoldsLease(w, m);
    assert !Claimable(w.marks, e, w.now);
    if (step.DeliveryFails? || step.DeliverySucceeds? || step.BadPayload?)
       && IsDelivering(w, step.message) && w.messages[step.message].event == e {
      assert BothDeliver(w, m, step.message);
    }
    if e !in t.marks || t.marks[e] != w.marks[e] {
      WhoWritesMark(w, step, e);
    }
  }

  lemma {:induction false} RunKeepsLease(w: World, steps: seq<Step>)
    requires LeaseInv(w) && PromptRun(w, steps)
    ensures LeaseInv(Run(w, steps))
    decreases |steps|
  {
    if steps != [] {
      StepKeepsLease(w, steps[0]);
      RunKeepsLease(Apply(w, steps[0]), steps[1..]);
    }
  }

  /** When every claim-to-settle span stays within the lease, at most one consumer delivers an event at any
      moment, cut off consumers included, and nobody delivers an event that has been processed. */
  lemma {:induction false} OneDelivererAtATime(maxRetries: nat, steps: seq<Step>, m: Id, n: Id)
    requires PromptRun(Initial(maxRetries), steps)
    requires IsDelivering(Run(Initial(maxRetries), steps), m)
    ensures var w := Run(Initial(maxRetries), steps);
      && !Processed(w.marks, w.messages[m].event)
      && (IsDelivering(w, n) && w.messages[n].event == w.messages[m].event ==> n == m)
  {
    RunKeepsLease(Initial(maxRetries), steps);
    var w := Run(Initial(maxRetries), steps);
    assert HoldsLease(w, m);
    assert IsDelivering(w, n) && w.messages[n].event == w.messages[m].event ==> BothDeliver(w, m, n);
  }

  /** The span assumption is exact: while one consumer delivers, a second claim is granted if and only if the first
      one's lease has run out, and then both deliver. */
  lemma {:induction false} SecondClaimIffExpired(w: World, m: Id, n: Id)
    requires LeaseInv(w) && IsDelivering(w, m) && InStage(w, n, Received) && w.messages[n].event == w.messages[m].event
    ensures BothDeliver(Apply(w, Claim(n, false, true)), m, n) <==> w.now > Since(w, m) + 120
  {
    assert HoldsLease(w, m);
  }

  /** Prompt or not, once an event is processed no delivery of it ever starts again. */
  lemma {:induction false} NoDeliveryAfterProcessed(w: World, steps: seq<Step>, m: Id)
    requires IsDelivering(Run(w, steps), m) && Processed(w.marks, Run(w, steps).messages[m].event)
    ensures SameDelivery(w, Run(w, steps), m)
    decreases |steps|
  {
    if steps != [] {
      var t := Apply(w, steps[0]);
      ProcessedStays(w, steps[0], Run(w, steps).messages[m].event);
      NoDeliveryAfterProcessed(t, steps[1..], m);
      WhoDelivers(w, steps[0], m);
    }
  }
}
