/** What the statements of delivery do to the rows of the outbox and of the processed events, column by column, and how
    long their leases last. */
module DeliveryStatements {
  import opened Wrappers
  import opened Delivery

  // ----- the outbox -----

  /** A row that a publisher may take: unpublished, and its lease absent or over. */
  predicate Waiting(w: World, e: Id) {
    e in w.outbox && !w.outbox[e].published && (w.outbox[e].lease == None || w.outbox[e].lease.value < w.now)
  }

  /** A claim takes rows that wait, each once and at most a hundred, for 30 seconds, and counts the attempt; no other row
      changes. */
  lemma {:induction false} OutboxClaimMeans(w: World, p: Id, batch: seq<Id>)
    requires p in w.publishers ==> w.publishers[p].todo == []
    ensures var t := Apply(w, ClaimBatch(p, batch));
      if && |batch| <= 100 && (forall i :: 0 <= i < |batch| ==> Waiting(w, batch[i]))
         && (forall i, j :: 0 <= i < j < |batch| ==> batch[i] != batch[j])
      then
        && t == w.(outbox := t.outbox, publishers := w.publishers[p := Publisher(batch, false)])
        && t.outbox.Keys == w.outbox.Keys
        && forall e :: e in w.outbox ==>
             t.outbox[e] == if e in batch then Row(false, Some(w.now + 30), w.outbox[e].attempts + 1, w.outbox[e].created) else w.outbox[e]
      else t == w
  {
    if forall i :: 0 <= i < |batch| ==> Waiting(w, batch[i]) {
      assert forall e :: e in batch ==> Waiting(w, e);
    }
    assert (forall i :: 0 <= i < |batch| ==> Waiting(w, batch[i]))
       <==> forall i :: 0 <= i < |batch| ==> batch[i] in w.outbox && Publishable(w.outbox[batch[i]], w.now);
    assert LeaseAll(w.outbox, batch, w.now).Keys == w.outbox.Keys;
  }

  /** A row that a publisher has taken can be taken again exactly when more than 30 seconds have passed. */
  lemma {:induction false} PublishLeaseLasts(w: World, p: Id, e: Id, elapsed: nat)
    requires p !in w.publishers && Waiting(w, e)
    ensures Waiting(Apply(Apply(w, ClaimBatch(p, [e])), Tick(elapsed)), e) <==> elapsed > 30
  {
    OutboxClaimMeans(w, p, [e]);
  }

  /** A row that was given back after a failed publication can be taken again exactly when more than a second has
      passed. */
  lemma {:induction false} ReleasedRowWaits(w: World, p: Id, elapsed: nat)
    requires p in w.publishers && w.publishers[p].todo != [] && !w.publishers[p].confirmed
    requires w.publishers[p].todo[0] in w.outbox && !w.outbox[w.publishers[p].todo[0]].published
    ensures var e, t := w.publishers[p].todo[0], Apply(w, ReleaseRow(p));
      && e in t.outbox && t.outbox[e].attempts == w.outbox[e].attempts && t.messages == w.messages && t.marks == w.marks
      && (Waiting(Apply(t, Tick(elapsed)), e) <==> elapsed > 1)
      && (forall other :: other in w.outbox && other != e ==> other in t.outbox && t.outbox[other] == w.outbox[other])
  {
  }

  /** Only an observed confirmation lets a publisher mark its row; a marked row is never taken again. */
  lemma {:induction false} MarkedRowIsDone(w: World, p: Id, elapsed: nat)
    requires p in w.publishers && w.publishers[p].todo != [] && w.publishers[p].todo[0] in w.outbox
    ensures var e, t := w.publishers[p].todo[0], Apply(w, MarkPublished(p));
      if w.publishers[p].confirmed && !w.outbox[e].published then
        && t == w.(outbox := w.outbox[e := Row(true, None, w.outbox[e].attempts, w.outbox[e].created)],
                   publishers := w.publishers[p := Publisher(w.publishers[p].todo[1..], false)])
        && !Waiting(Apply(t, Tick(elapsed)), e)
      else t.outbox == w.outbox
  {
  }

  // ----- the processed events -----

  /** A consumer may take the event: nobody has, or the lease of an unprocessed one is over. */
  predicate Free(w: World, e: Id) {
    e !in w.marks || (!w.marks[e].processed && w.marks[e].until < w.now)
  }

  /** A claim is granted exactly on a free event, for 120 seconds, and counts the attempt. Otherwise a processed event is
      acknowledged and a busy one retried. When the store fails, the message is retried, whether the claim was recorded
      or not. */
  lemma {:induction false} EventClaimMeans(w: World, m: Id, storeFails: bool, recorded: bool)
    requires m in w.messages && Handled(w.messages[m]) && w.messages[m].place.stage == Received
    ensures var e, t := w.messages[m].event, Apply(w, Claim(m, storeFails, recorded));
      var mark := Mark(w.now + 120, false, if e in w.marks then w.marks[e].attempts + 1 else 1);
      && t == w.(messages := t.messages, marks := t.marks)
      && t.marks == (if Free(w, e) && (!storeFails || recorded) then w.marks[e := mark] else w.marks)
      && t.messages == w.messages[m := t.messages[m]]
      && t.messages[m].event == e && t.messages[m].retries == w.messages[m].retries && Handled(t.messages[m])
      && t.messages[m].place.stage
         == if storeFails then RetryDue
            else if Free(w, e) then Delivering(w.now)
            else if w.marks[e].processed then AckDue else RetryDue
  {
  }

  /** A claimed event is free again exactly when more than 120 seconds have passed. */
  lemma {:induction false} ProcessingLeaseLasts(w: World, m: Id, elapsed: nat)
    requires m in w.messages && Handled(w.messages[m]) && w.messages[m].place.stage == Received && Free(w, w.messages[m].event)
    ensures Free(Apply(Apply(w, Claim(m, false, true)), Tick(elapsed)), w.messages[m].event) <==> elapsed > 120
  {
    EventClaimMeans(w, m, false, true);
  }

  /** After a failed delivery that released its claim the event is free as soon as the clock moves; without the release
      nothing but the stage of the message changes. */
  lemma {:induction false} FailedDeliveryFrees(w: World, m: Id, released: bool, elapsed: nat)
    requires IsDelivering(w, m) && w.messages[m].event in w.marks && !w.marks[w.messages[m].event].processed
    ensures var e, t := w.messages[m].event, Apply(w, DeliveryFails(m, released));
      && m in t.messages && Handled(t.messages[m]) && t.messages[m].place.stage == RetryDue
      && (released ==> (Free(Apply(t, Tick(elapsed)), e) <==> elapsed > 0) && t.marks[e].attempts == w.marks[e].attempts)
      && (!released ==> t.marks == w.marks)
  {
  }

  /** A stored success makes the event processed for good; the message is acknowledged only when the store said so and the
      event had not been processed before. */
  lemma {:induction false} SuccessMeans(w: World, m: Id, stored: bool, reported: bool)
    requires IsDelivering(w, m)
    ensures var e, t := w.messages[m].event, Apply(w, DeliverySucceeds(m, stored, reported));
      var first := e in w.marks && !w.marks[e].processed;
      && t == w.(messages := t.messages, marks := t.marks)
      && t.marks == (if stored && first then w.marks[e := Mark(w.now, true, w.marks[e].attempts)] else w.marks)
      && m in t.messages && Handled(t.messages[m])
      && t.messages[m].place.stage == if stored && reported && first then AckDue else RetryDue
  {
  }

  /** A message leaves the broker only by an acknowledgement of its own consumer, still connected, or with a consumer that
      has lost its connection and gives up. */
  lemma {:induction false} LeavesBrokerIff(w: World, step: Step, m: Id)
    requires m in w.messages
    ensures m !in Apply(w, step).messages <==>
              || (step == Ack(m) && w.messages[m].place.Unacked? && w.messages[m].place.stage == AckDue)
              || (step == Abandon(m) && w.messages[m].place.CutOff?)
  {
  }

  /** A dead letter is written exactly for a message that is rejected, or due for a retry with no attempt left, when the
      broker accepts the copy. */
  lemma {:induction false} DeadIff(w: World, step: Step, e: Id)
    requires e !in w.dead
    ensures e in Apply(w, step).dead <==>
              && step.SettleDead? && step.accepted && step.message in w.messages && w.messages[step.message].event == e
              && w.messages[step.message].place.Unacked?
              && (|| w.messages[step.message].place.stage == DeadDue
                  || (w.messages[step.message].place.stage == RetryDue && w.messages[step.message].retries >= w.maxRetries))
  {
  }
}
