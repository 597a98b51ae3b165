/**
  The publisher loop and the consumer's handling of one message, statement by statement, as paths of the delivery
  machine: everything proved about all its runs holds while they work.
 */
module DeliveryWorkers {
  import opened Wrappers
  import opened Delivery
  import opened DeliveryStatements
  import opened Deliverability

  /** What the AMQP adapter does with a message. */
  datatype Outcome = WasProcessed | Duplicate | Retry | Dead

  datatype ClaimState = Claimed | AlreadyProcessed | Busy

  lemma {:induction false} RunAppend(w: World, first: seq<Step>, step: Step)
    ensures Run(w, first + [step]) == Apply(Run(w, first), step)
    decreases |first|
  {
    if first == [] {
      assert Run(Apply(w, step), []) == Apply(w, step);
    } else {
      RunAppend(Apply(w, first[0]), first[1..], step);
      assert (first + [step])[0] == first[0] && (first + [step])[1..] == first[1..] + [step];
    }
  }

  predicate Published(w: World, e: Id) {
    e in w.outbox && w.outbox[e].published
  }

  /** Rows stay, published rows stay published, and safe, processed and dead-lettered events stay so. */
  ghost predicate Onward(s: World, t: World) {
    && (forall e :: e in s.outbox ==> e in t.outbox)
    && (forall e :: Published(s, e) ==> Published(t, e))
    && (forall e :: Safe(s, e) ==> Safe(t, e))
    && (forall e :: Processed(s.marks, e) ==> Processed(t.marks, e))
    && s.dead <= t.dead
  }

  lemma OnwardStep(w: World, step: Step)
    ensures Onward(w, Apply(w, step))
  {
    var t := Apply(w, step);
    forall e ensures Safe(w, e) ==> Safe(t, e)
      ensures Processed(w.marks, e) ==> Processed(t.marks, e)
      ensures w.dead <= t.dead
    {
      ProcessedStays(w, step, e);
      if Safe(w, e) {
        StepKeepsSafe(w, step, e);
      }
    }
    forall e | e in w.outbox ensures e in t.outbox && (Published(w, e) ==> Published(t, e)) {
      RowsKept(w, step, e);
    }
  }

  lemma {:induction false} OnwardRun(w: World, steps: seq<Step>)
    ensures Onward(w, Run(w, steps))
    decreases |steps|
  {
    if steps != [] {
      OnwardStep(w, steps[0]);
      OnwardRun(Apply(w, steps[0]), steps[1..]);
      OnwardTransitive(w, Apply(w, steps[0]), Run(w, steps));
    }
  }

  lemma {:induction false} RunSplit(w: World, first: seq<Step>, second: seq<Step>)
    ensures Run(w, first + second) == Run(Run(w, first), second)
    decreases |first|
  {
    if first == [] {
      assert first + second == second;
    } else {
      RunSplit(Apply(w, first[0]), first[1..], second);
      assert (first + second)[0] == first[0] && (first + second)[1..] == first[1..] + second;
    }
  }

  lemma OnwardTransitive(s: World, t: World, u: World)
    requires Onward(s, t) && Onward(t, u)
    ensures Onward(s, u)
  {
  }

  lemma OnwardLog(w: World, before: seq<Step>, after: seq<Step>)
    requires before <= after
    ensures Onward(Run(w, before), Run(w, after))
  {
    RunSplit(w, before, after[|before|..]);
    assert before + after[|before|..] == after;
    OnwardRun(Run(w, before), after[|before|..]);
  }

  /** The step is one of this publisher's. */
  predicate Concerns(step: Step, p: Id) {
    match step
    case ClaimBatch(q, _) => q == p
    case PublishAccepted(q, _, _) => q == p
    case PublishLost(q) => q == p
    case MarkPublished(q) => q == p
    case ReleaseRow(q) => q == p
    case PublisherCrash(q) => q == p
    case _ => false
  }

  lemma LeavesPublisher(w: World, step: Step, p: Id)
    requires !Concerns(step, p) && p in w.publishers
    ensures p in Apply(w, step).publishers && Apply(w, step).publishers[p] == w.publishers[p]
  {
  }

  /** The step is taken by the consumer that handles this message, or is its crash. */
  predicate OfConsumer(w: World, step: Step, m: Id) {
    match step
    case Reject(x) => x == m
    case Claim(x, _, _) => x == m
    case DeliveryFails(x, _) => x == m
    case DeliverySucceeds(x, _, _) => x == m
    case BadPayload(x, _) => x == m
    case SettleRetry(x, _, _) => x == m
    case SettleDead(x, _) => x == m
    case Ack(x) => x == m
    case Abandon(x) => x == m
    case ConsumerCrash(c) => m in w.messages && w.messages[m].place.Unacked? && w.messages[m].place.consumer == c
    case _ => false
  }

  /** A consumer is as far with its message as before; at most the connection has dropped. */
  predicate SameHandling(s: World, t: World, m: Id) {
    && m in s.messages && m in t.messages && Handled(s.messages[m]) && Handled(t.messages[m])
    && t.messages[m].event == s.messages[m].event && t.messages[m].retries == s.messages[m].retries
    && t.messages[m].place.stage == s.messages[m].place.stage && t.maxRetries == s.maxRetries
  }

  lemma LeavesHandling(w: World, step: Step, m: Id)
    requires m in w.messages && Handled(w.messages[m]) && !OfConsumer(w, step, m)
    ensures SameHandling(w, Apply(w, step), m)
  {
    LimitStays(w, step);
    StageStays(w, step, m);
    EventsOfMessagesStay(w, step, m);
  }

  lemma StageStays(w: World, step: Step, m: Id)
    requires m in w.messages && Handled(w.messages[m]) && !OfConsumer(w, step, m)
    ensures m in Apply(w, step).messages && Handled(Apply(w, step).messages[m])
    ensures Apply(w, step).messages[m].place.stage == w.messages[m].place.stage
  {
  }

  /** The claim is an upsert, and a look at the row when the upsert did nothing. Whatever others do in between, the
      row is still there, and the result is that of an undivided claim at one of the two moments. */
  lemma {:induction false} ClaimIsAtomic(w: World, others: seq<Step>, e: Id)
    requires !Claimable(w.marks, e, w.now)
    ensures var t := Run(w, others);
      && e in t.marks
      && (if Processed(t.marks, e) then !Claimable(t.marks, e, t.now) else !Processed(w.marks, e))
    decreases |others|
  {
    RunKeepsMarks(w, others, e);
  }

  lemma {:induction false} RunKeepsMarks(w: World, steps: seq<Step>, e: Id)
    requires e in w.marks
    ensures e in Run(w, steps).marks
    ensures Processed(w.marks, e) ==> Processed(Run(w, steps).marks, e)
    decreases |steps|
  {
    if steps != [] {
      MarksStay(w, steps[0], e);
      ProcessedStays(w, steps[0], e);
      RunKeepsMarks(Apply(w, steps[0]), steps[1..], e);
    }
  }

  /** How the handling of a message ends: what became of it, and a retry copy's id. */
  datatype Ending = Done | Buried | Copied(copy: Id) | PutBack | Dropped

  /** What the end of the handling of a message with n retries means, just after it in `t` and finally in `w`. A dropped
      message has been taken back by the broker, which holds it under another id. */
  ghost predicate Meaning(ending: Ending, t: World, w: World, m: Id, e: Id, n: nat) {
    && Safe(w, e)
    && match ending
       case Done => Processed(w.marks, e)
       case Buried => e in w.dead
       case Copied(copy) => copy in t.messages && t.messages[copy] == Message(e, n + 1, RetryQueue) && n < w.maxRetries
       case PutBack => m in t.messages && t.messages[m] == Message(e, n, MainQueue)
       case Dropped => m !in t.messages
  }

  /** ORDER BY created_at, id. */
  predicate Earlier(outbox: map<Id, Row>, x: Id, y: Id) {
    && x in outbox && y in outbox
    && (outbox[x].created < outbox[y].created || (outbox[x].created == outbox[y].created && x < y))
  }

  /** The earliest publishable rows that nobody else has locked, and all of them unless the limit is reached. The order in
      which they are returned is the database's. */
  predicate IsBatch(w: World, limit: nat, locked: set<Id>, batch: seq<Id>) {
    && |batch| <= limit && LegalBatch(w, batch)
    && (forall e :: e in batch ==> e !in locked)
    && (forall e :: e in w.outbox && Publishable(w.outbox[e], w.now) && e !in locked && e !in batch ==>
          |batch| == limit && forall other :: other in batch ==> Earlier(w.outbox, other, e))
  }

  /** A batch holds rows that are unpublished and whose lease is absent or over, none of them locked by others, each once;
      a row left out is later than every row of the batch, which is then full. */
  lemma {:induction false} BatchMeans(w: World, limit: nat, locked: set<Id>, batch: seq<Id>)
    requires limit <= 100
    ensures IsBatch(w, limit, locked, batch) <==>
              && |batch| <= limit && (forall i, j :: 0 <= i < j < |batch| ==> batch[i] != batch[j])
              && (forall e: Id :: e in batch ==> Waiting(w, e) && e !in locked)
              && (forall e: Id :: Waiting(w, e) && e !in locked && e !in batch ==>
                    |batch| == limit
                    && forall other :: other in batch ==>
                         || w.outbox[other].created < w.outbox[e].created
                         || (w.outbox[other].created == w.outbox[e].created && other < e))
  {
    forall e | e in w.outbox ensures Publishable(w.outbox[e], w.now) <==> Waiting(w, e) {
    }
    assert LegalBatch(w, batch) ==> forall e :: e in batch ==> Waiting(w, e);
    if forall e :: e in batch ==> Waiting(w, e) {
      assert forall i :: 0 <= i < |batch| ==> Waiting(w, batch[i]);
    }
  }

  lemma LegalInBatch(w: World, limit: nat, locked: set<Id>, batch: seq<Id>)
    requires IsBatch(w, limit, locked, batch)
    ensures LegalBatch(w, batch)
  {
  }

  class Node {
    var w: World
    /** The steps taken since the node was created. */
    ghost var start: World
    ghost var log: seq<Step>

    ghost predicate Valid()
      reads this
    {
      w == Run(start, log) && Inv(w)
    }

    constructor (maxRetries: nat)
      ensures Valid() && w == start == Initial(maxRetries) && log == []
    {
      w, start, log := Initial(maxRetries), Initial(maxRetries), [];
    }

    /** One atomic action. */
    method Do(step: Step)
      requires Valid()
      modifies this
      ensures Valid() && start == old(start) && log == old(log) + [step]
      ensures w == Apply(old(w), step)
    {
      RunAppend(start, log, step);
      StepKeeps(w, step);
      w := Apply(w, step);
      log := log + [step];
    }

    // ----- consumer -----

    /** Everybody else takes any number of steps, and the connection may drop; the consumer itself stands still. */
    method Meanwhile(m: Id)
      requires Valid() && m in w.messages && Handled(w.messages[m])
      modifies this
      ensures Valid() && start == old(start) && old(log) <= log
      ensures Onward(old(w), w) && SameHandling(old(w), w, m)
    {
      var steps: seq<Step> := *;
      for i := 0 to |steps|
        invariant Valid() && start == old(start) && old(log) <= log
        invariant SameHandling(old(w), w, m)
      {
        if !OfConsumer(w, steps[i], m) {
          LeavesHandling(w, steps[i], m);
          Do(steps[i]);
        }
      }
      OnwardLog(start, old(log), log);
    }

    /** Claim: the upsert, and the look at the row when the upsert did nothing. */
    method ClaimEvent(m: Id) returns (r: Option<ClaimState>)
      requires Valid() && InStage(w, m, Received)
      modifies this
      ensures Valid() && start == old(start) && old(log) <= log && w.maxRetries == old(w).maxRetries
      ensures m in w.messages && Handled(w.messages[m])
      ensures w.messages[m].event == old(w).messages[m].event && w.messages[m].retries == old(w).messages[m].retries
      ensures r == Some(Claimed) <==> IsDelivering(w, m)
      ensures r == Some(Claimed) ==>
                var e := w.messages[m].event;
                && (e !in old(w).marks || (!old(w).marks[e].processed && old(w).marks[e].until < old(w).now))
                && e in w.marks && !w.marks[e].processed && w.marks[e].until == old(w).now + 120
                && w.marks[e].attempts == 1 + if e in old(w).marks then old(w).marks[e].attempts else 0
      ensures r == Some(AlreadyProcessed) ==> InStage(w, m, AckDue) && Processed(w.marks, w.messages[m].event)
      ensures r == Some(Busy) ==>
                InStage(w, m, RetryDue) && w.messages[m].event in w.marks
                && !w.marks[w.messages[m].event].processed && w.marks[w.messages[m].event].until >= w.now
      ensures r == None ==> InStage(w, m, RetryDue)
    {
      var e := w.messages[m].event;
      var storeFails: bool, recorded: bool := *, *;
      var granted := Claimable(w.marks, e, w.now);
      var done := Processed(w.marks, e);
      Do(Claim(m, storeFails, recorded));
      r := if storeFails then None else if granted then Some(Claimed) else if done then Some(AlreadyProcessed) else Some(Busy);
    }

    /** Process: validate, claim, deliver, store completion, while others act. */
    method Process(m: Id) returns (outcome: Outcome)
      requires Valid() && InStage(w, m, Received)
      modifies this
      ensures Valid() && start == old(start) && old(log) <= log && Onward(old(w), w) && w.maxRetries == old(w).maxRetries
      ensures m in w.messages && Handled(w.messages[m])
      ensures w.messages[m].event == old(w).messages[m].event && w.messages[m].retries == old(w).messages[m].retries
      ensures outcome.WasProcessed? || outcome.Duplicate? ==> InStage(w, m, AckDue) && Processed(w.marks, w.messages[m].event)
      ensures outcome.Retry? ==> InStage(w, m, RetryDue)
      ensures outcome.Dead? ==> InStage(w, m, DeadDue)
    {
      Meanwhile(m);
      var valid: bool := *;
      if !valid {
        Do(Reject(m));
        OnwardLog(start, old(log), log);
        return Dead;
      }
      var claim := ClaimEvent(m);
      if claim.None? {
        outcome := Retry;
      } else {
        match claim.value
        case AlreadyProcessed => outcome := Duplicate;
        case Busy => outcome := Retry;
        case Claimed => outcome := DeliverClaimed(m);
      }
      OnwardLog(start, old(log), log);
    }

    /** The part of Process after the claim. */
    method DeliverClaimed(m: Id) returns (outcome: Outcome)
      requires Valid() && IsDelivering(w, m)
      modifies this
      ensures Valid() && start == old(start) && old(log) <= log && w.maxRetries == old(w).maxRetries
      ensures m in w.messages && Handled(w.messages[m])
      ensures w.messages[m].event == old(w).messages[m].event && w.messages[m].retries == old(w).messages[m].retries
      ensures outcome.WasProcessed? ==> InStage(w, m, AckDue) && Processed(w.marks, w.messages[m].event)
      ensures outcome.Retry? ==> InStage(w, m, RetryDue)
      ensures outcome.Dead? ==> InStage(w, m, DeadDue)
      ensures !outcome.Duplicate?
    {
      var readable: bool, delivered: bool, released: bool, stored: bool, reported: bool := *, *, *, *, *;
      Meanwhile(m);
      if !readable {
        Do(BadPayload(m, released));
        return Dead;
      }
      if !delivered {
        Do(DeliveryFails(m, released));
        return Retry;
      }
      var first := w.messages[m].event in w.marks && !w.marks[w.messages[m].event].processed;
      Do(DeliverySucceeds(m, stored, reported));
      outcome := if stored && reported && first then WasProcessed else Retry;
    }

    /** Acknowledge a settled message, if the connection still stands and the call gets through. */
    method Acknowledge(m: Id)
      requires Valid() && InStage(w, m, AckDue)
      modifies this
      ensures Valid() && start == old(start) && old(log) <= log && Onward(old(w), w) && w.maxRetries == old(w).maxRetries
    {
      Meanwhile(m);
      LimitStays(w, Abandon(m));
      LimitStays(w, Ack(m));
      if !Connected(w, m) {
        Do(Abandon(m));
      } else {
        var acked: bool := *;
        if acked {
          Do(Ack(m));
        }
      }
      OnwardLog(start, old(log), log);
    }

    /** Publish a dead letter and acknowledge, or put the message back. */
    method DeadLetter(m: Id) returns (ending: Ending, ghost settled: World)
      requires Valid() && (InStage(w, m, DeadDue) || (InStage(w, m, RetryDue) && w.messages[m].retries >= w.maxRetries))
      requires Safe(w, w.messages[m].event)
      modifies this
      ensures Valid() && start == old(start) && old(log) <= log && Onward(old(w), w) && w.maxRetries == old(w).maxRetries
      ensures Onward(old(w), settled) && Onward(settled, w)
      ensures Meaning(ending, settled, w, m, old(w).messages[m].event, old(w).messages[m].retries)
      ensures ending.Buried? || ending.PutBack? || ending.Dropped?
    {
      Meanwhile(m);
      if !Connected(w, m) {
        Do(Abandon(m));
        ending := Dropped;
      } else {
        var accepted: bool := *;
        Do(SettleDead(m, accepted));
        ending := if accepted then Buried else PutBack;
      }
      settled := w;
      ghost var before := log;
      OnwardLog(start, old(log), before);
      if ending == Buried {
        Acknowledge(m);
      }
      OnwardLog(start, before, log);
      OnwardLog(start, old(log), log);
    }

    /**
      handleDelivery, while others act and the connection may drop: the event stays safe throughout, and in the end it is
      processed, dead-lettered, or in the broker, as a copy with one more retry or as the message itself. A failed
      attempt makes a copy only below the retry limit and a dead letter only at it.
     */
    method HandleDelivery(m: Id) returns (outcome: Outcome, ending: Ending, ghost settled: World)
      requires Valid() && InStage(w, m, Received) && Connected(w, m)
      modifies this
      ensures Valid() && start == old(start) && old(log) <= log && Onward(old(w), w)
      ensures Onward(old(w), settled) && Onward(settled, w)
      ensures var e, n := old(w).messages[m].event, old(w).messages[m].retries;
        && Meaning(ending, settled, w, m, e, n)
        && match outcome
           case Retry => !ending.Done? && (ending.Copied? ==> n < w.maxRetries) && (ending.Buried? ==> n >= w.maxRetries)
           case Dead => ending.Buried? || ending.PutBack? || ending.Dropped?
           case _ => ending.Done?
    {
      assert Live(w, m);
      outcome := Process(m);
      ghost var before := log;
      OnwardLog(start, old(log), before);
      match outcome {
        case Dead =>
          ending, settled := DeadLetter(m);
        case Retry =>
          ending, settled := HandleRetry(m);
        case _ =>
          ending, settled := Done, w;
          Acknowledge(m);
      }
      OnwardTransitive(old(w), Run(start, before), settled);
      OnwardLog(start, old(log), log);
    }

    /** A failed attempt: a copy for the retry queue below the limit, a dead letter at the limit. */
    method HandleRetry(m: Id) returns (ending: Ending, ghost settled: World)
      requires Valid() && InStage(w, m, RetryDue) && Safe(w, w.messages[m].event)
      modifies this
      ensures Valid() && start == old(start) && old(log) <= log && Onward(old(w), w) && w.maxRetries == old(w).maxRetries
      ensures Onward(old(w), settled) && Onward(settled, w)
      ensures Meaning(ending, settled, w, m, old(w).messages[m].event, old(w).messages[m].retries)
      ensures !ending.Done? && (ending.Copied? ==> old(w).messages[m].retries < w.maxRetries)
      ensures ending.Buried? ==> old(w).messages[m].retries >= w.maxRetries
    {
      if RetryCount(w.messages[m]) >= w.maxRetries {
        ending, settled := DeadLetter(m);
        return;
      }
      Meanwhile(m);
      if !Connected(w, m) {
        Do(Abandon(m));
        ending := Dropped;
      } else {
        var accepted: bool := *;
        var copy := FreshMessage();
        Do(SettleRetry(m, copy, accepted));
        ending := if accepted then Copied(copy) else PutBack;
      }
      settled := w;
      ghost var before := log;
      OnwardLog(start, old(log), before);
      if ending.Copied? {
        Acknowledge(m);
      }
      OnwardLog(start, before, log);
      OnwardLog(start, old(log), log);
    }

    // ----- publisher -----

    method FreshMessage() returns (id: Id)
      ensures id !in w.messages
    {
      id := 0;
      var rest := w.messages.Keys;
      while rest != {}
        invariant forall other :: other in w.messages && other !in rest ==> other < id
        decreases |rest|
      {
        var other :| other in rest;
        rest := rest - {other};
        if other >= id {
          id := other + 1;
        }
      }
    }

    /** Publish with confirms: true only when the broker has stored the message and said so. */
    method Publish(p: Id) returns (confirmed: bool)
      requires Valid() && Holds(w, p, false)
      modifies this
      ensures Valid() && start == old(start) && old(log) <= log
      ensures w.outbox == old(w).outbox && p in w.publishers && w.publishers[p].todo == old(w).publishers[p].todo
      ensures w.publishers[p].confirmed == confirmed
      ensures confirmed ==> Held(w, w.publishers[p].todo[0])
    {
      var accepted: bool, observed: bool := *, *;
      if !accepted {
        Do(PublishLost(p));
        return false;
      }
      var message := FreshMessage();
      Do(PublishAccepted(p, message, observed));
      confirmed := observed;
      assert Live(w, message);
    }

    /** Everybody else takes any number of steps; only this publisher's own state is out of their reach. */
    method Others(p: Id) returns (ghost idle: bool)
      requires Valid()
      modifies this
      ensures Valid() && start == old(start) && old(log) <= log && Onward(old(w), w) && (idle ==> w == old(w))
      ensures p in old(w).publishers ==> p in w.publishers && w.publishers[p] == old(w).publishers[p]
    {
      var steps: seq<Step> := *;
      idle := steps == [];
      for i := 0 to |steps|
        invariant Valid() && start == old(start) && old(log) <= log && (i == 0 ==> w == old(w))
        invariant p in old(w).publishers ==> p in w.publishers && w.publishers[p] == old(w).publishers[p]
      {
        if !Concerns(steps[i], p) {
          if p in w.publishers {
            LeavesPublisher(w, steps[i], p);
          }
          Do(steps[i]);
        }
      }
      OnwardLog(start, old(log), log);
    }

    /**
      Publish and mark the first event that the publisher holds, or give up; others may act before and in between.
      When the publisher's lease has run out somebody else may have marked the event first, which is an error too.
      Left alone, the call changes no other published flag.
     */
    method FlushOne(p: Id) returns (ok: bool, ghost alone: bool)
      requires Valid() && Holds(w, p, false) && w.publishers[p].todo[0] in w.outbox
      modifies this
      ensures Valid() && start == old(start) && old(log) <= log && Onward(old(w), w)
      ensures ok ==>
                && p in w.publishers && w.publishers[p] == Publisher(old(w).publishers[p].todo[1..], false)
                && Published(w, old(w).publishers[p].todo[0]) && Safe(w, old(w).publishers[p].todo[0])
      ensures alone && !Published(old(w), old(w).publishers[p].todo[0]) ==>
                forall e :: Published(w, e) <==> Published(old(w), e) || (ok && e == old(w).publishers[p].todo[0])
    {
      ghost var first := Others(p);
      alone := first;
      var confirmed := Publish(p);
      if !confirmed {
        GiveUp(p);
        ok := false;
      } else {
        ghost var second := Others(p);
        alone := first && second;
        ok := MarkFirst(p);
      }
      OnwardLog(start, old(log), log);
    }

    /** After a failed publication: the row is released, or the publisher does not even get to that. */
    method GiveUp(p: Id)
      requires Valid() && Holds(w, p, false)
      modifies this
      ensures Valid() && start == old(start) && old(log) <= log
      ensures forall e :: Published(w, e) <==> Published(old(w), e)
    {
      var released: bool := *;
      Do(if released then ReleaseRow(p) else PublisherCrash(p));
    }

    /** MarkPublished after a confirm; it may fail, or find that somebody else was first. */
    method MarkFirst(p: Id) returns (ok: bool)
      requires Valid() && Holds(w, p, true)
      modifies this
      ensures Valid() && start == old(start) && old(log) <= log
      ensures ok ==>
                && p in w.publishers && w.publishers[p] == Publisher(old(w).publishers[p].todo[1..], false)
                && Published(w, old(w).publishers[p].todo[0]) && Safe(w, old(w).publishers[p].todo[0])
      ensures forall e :: Published(w, e) <==> Published(old(w), e) || (ok && e == old(w).publishers[p].todo[0])
    {
      var marked: bool := *;
      if marked {
        var e := w.publishers[p].todo[0];
        ok := e in w.outbox && !w.outbox[e].published;
        Do(MarkPublished(p));
      } else {
        Do(PublisherCrash(p));
        ok := false;
      }
    }

    method Earliest(ids: set<Id>) returns (first: Id)
      requires ids != {} && ids <= w.outbox.Keys
      ensures first in ids && forall id :: id in ids && id != first ==> Earlier(w.outbox, first, id)
    {
      first :| first in ids;
      var rest := ids - {first};
      while rest != {}
        invariant first in ids && rest <= ids - {first}
        invariant forall id :: id in ids && id != first && id !in rest ==> Earlier(w.outbox, first, id)
        decreases |rest|
      {
        var id :| id in rest;
        rest := rest - {id};
        if Earlier(w.outbox, id, first) {
          first := id;
        }
      }
    }

    /** The SELECT of ClaimBatch. */
    method Candidates(limit: nat, locked: set<Id>) returns (batch: seq<Id>)
      requires limit <= 100
      ensures IsBatch(w, limit, locked, batch)
    {
      var rest := set e | e in w.outbox && Publishable(w.outbox[e], w.now) && e !in locked;
      batch := [];
      while rest != {} && |batch| < limit
        invariant |batch| <= limit
        invariant forall e :: e in batch || e in rest <==> e in w.outbox && Publishable(w.outbox[e], w.now) && e !in locked
        invariant forall i, j :: 0 <= i < j < |batch| ==> batch[i] != batch[j]
        invariant forall e, other :: e in rest && other in batch ==> Earlier(w.outbox, other, e)
        decreases |rest|
      {
        var first := Earliest(rest);
        assert first !in batch;
        rest, batch := rest - {first}, batch + [first];
      }
    }

    /** ClaimBatch: the candidates are leased, and returned in any order. */
    method ClaimRows(p: Id, locked: set<Id>) returns (batch: seq<Id>)
      requires Valid() && (p in w.publishers ==> w.publishers[p].todo == [])
      modifies this
      ensures Valid() && start == old(start) && old(log) <= log
      ensures IsBatch(old(w), 25, locked, batch)
      ensures p in w.publishers && w.publishers[p] == Publisher(batch, false)
      ensures forall i :: 0 <= i < |batch| ==> batch[i] in w.outbox && !Published(w, batch[i])
    {
      var candidates := Candidates(DEFAULT_BATCH, locked);
      var returned: seq<Id> :| IsBatch(w, DEFAULT_BATCH, locked, returned);
      batch := returned;
      LegalInBatch(w, DEFAULT_BATCH, locked, batch);
      Do(ClaimBatch(p, batch));
    }

    /**
      Flush: lease the earliest publishable rows that nobody else has locked, then publish and mark event by event, while
      others act. On success every event of the batch is published and safe; after an early exit the first `done` ones
      are. Left alone, those are exactly the published ones.
     */
    method Flush(p: Id) returns (ok: bool, ghost locked: set<Id>, ghost batch: seq<Id>, ghost done: nat, ghost alone: bool)
      requires Valid() && (p in w.publishers ==> w.publishers[p].todo == [])
      modifies this
      ensures Valid() && start == old(start) && old(log) <= log && Onward(old(w), w)
      ensures IsBatch(old(w), 25, locked, batch)
      ensures done <= |batch| && (ok ==> done == |batch|)
      ensures forall i :: 0 <= i < done ==> Published(w, batch[i]) && Safe(w, batch[i])
      ensures alone ==> forall i :: 0 <= i < |batch| ==> (Published(w, batch[i]) <==> i < done)
    {
      var others: set<Id> := *;
      var events := ClaimRows(p, others);
      locked, batch, done, alone := others, events, 0, true;
      assert events[0..] == events;
      for i := 0 to |events|
        invariant Valid() && start == old(start) && old(log) <= log && done == i
        invariant p in w.publishers && w.publishers[p] == Publisher(events[i..], false)
        invariant forall j :: 0 <= j < |events| ==> events[j] in w.outbox
        invariant forall j :: 0 <= j < i ==> Published(w, events[j]) && Safe(w, events[j])
        invariant alone ==> forall j :: 0 <= j < |events| ==> (Published(w, events[j]) <==> j < i)
      {
        assert events[i..][0] == events[i] && events[i..][1..] == events[i + 1..];
        ghost var undisturbed;
        ok, undisturbed := FlushOne(p);
        alone := alone && undisturbed;
        if !ok {
          OnwardLog(start, old(log), log);
          return;
        }
        done := i + 1;
      }
      ok := true;
      OnwardLog(start, old(log), log);
    }
  }
}
