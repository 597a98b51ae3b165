/** No payment before its time: over every run in which the clock does not go backwards. */
module Timing {
  import opened Wrappers
  import opened Posting
  import opened Lifecycle
  import opened Bank
  import opened BankInvariant
  import opened BankPreservation
  import opened BankRuns

  /** The clock after a transaction: some of them read it. */
  function ClockAfter(clock: int, step: Step): int {
    match step
    case Confirm(_, _, _, now, _) => now
    case ClaimDue(_, now) => now
    case RecoverStale(now, _) => now
    case _ => clock
  }

  function ClockAt(clock: int, steps: seq<Step>): int
    decreases |steps|
  {
    if steps == [] then clock else ClockAt(ClockAfter(clock, steps[0]), steps[1..])
  }

  /** The clock does not go backwards. */
  predicate Ticking(clock: int, steps: seq<Step>)
    decreases |steps|
  {
    steps == [] || (clock <= ClockAfter(clock, steps[0]) && Ticking(ClockAfter(clock, steps[0]), steps[1..]))
  }

  predicate OnTime(o: PaymentOrder, clock: int) {
    && (o.schedule.Standing? ==> !o.status.AwaitingConfirmation? && !o.status.Draft?)
    && (!o.schedule.Immediate? && (o.status.Processing? || o.status.Booked? || o.status.Failed?) ==> o.requestedAt <= clock)
  }

  ghost predicate AllOnTime(s: State, clock: int) {
    forall id {:trigger s.orders[id]} :: id in s.orders ==> OnTime(s.orders[id], clock)
  }

  lemma SettledOnTime(s: State, id: Uuid, txId: Uuid, clock: int)
    requires id in s.orders && AllOnTime(s, clock)
    ensures Settle(s, id, txId).Some? ==> AllOnTime(Settle(s, id, txId).value, clock)
  {
    SettleMovesOrder(s, id, txId);
    if Settle(s, id, txId).Some? {
      var o, p := s.orders[id], Settle(s, id, txId).value.orders[id];
      assert Identity(o).schedule == o.schedule && Identity(p).schedule == p.schedule;
      assert Identity(o).requestedAt == o.requestedAt && Identity(p).requestedAt == p.requestedAt;
    }
  }

  lemma ConfirmOnTime(s: State, owner: Uuid, id: Uuid, acceptMismatch: bool, now: int, txId: Uuid)
    requires AllOnTime(s, now)
    ensures AllOnTime(Apply(s, Confirm(owner, id, acceptMismatch, now, txId)), now)
  {
    if ConfirmReady(s, owner, id, acceptMismatch) {
      var o := s.orders[id];
      SettledOnTime(s.(orders := s.orders[id := ConfirmRow(o, ConfirmTarget(o, now), !o.vop.Match?)]), id, txId, now);
    }
  }

  lemma StepOnTime(s: State, clock: int, step: Step)
    requires AllOnTime(s, clock) && clock <= ClockAfter(clock, step)
    ensures AllOnTime(Apply(s, step), ClockAfter(clock, step))
  {
    match step
    case Confirm(owner, id, acceptMismatch, now, txId) =>
      ConfirmOnTime(s, owner, id, acceptMismatch, now, txId);
    case Process(id, txId) =>
      if id in s.orders {
        SettledOnTime(s, id, txId, clock);
      }
    case _ =>
      QuietOnTime(s, clock, step);
  }

  lemma QuietOnTime(s: State, clock: int, step: Step)
    requires AllOnTime(s, clock) && clock <= ClockAfter(clock, step) && !step.Confirm? && !step.Process?
    ensures AllOnTime(Apply(s, step), ClockAfter(clock, step))
  {
  }

  lemma {:induction false} RunOnTime(s: State, clock: int, steps: seq<Step>)
    requires AllOnTime(s, clock) && Ticking(clock, steps)
    ensures AllOnTime(Run(s, steps), ClockAt(clock, steps))
    decreases |steps|
  {
    if steps != [] {
      StepOnTime(s, clock, steps[0]);
      RunOnTime(Apply(s, steps[0]), ClockAfter(clock, steps[0]), steps[1..]);
    }
  }

  /** Whatever the workers and customers do: as long as the clock has not reached the time for which a payment is scheduled,
      or at which an occurrence of a standing order is due, no entry carries its id, no event mentions it, and it is not
      even being processed. */
  lemma {:induction false} NothingBeforeItsTime(settlement: Uuid, clock: int, steps: seq<Step>, id: Uuid)
    requires Ticking(clock, steps) && id in Run(Initial(settlement), steps).orders
    ensures var s := Run(Initial(settlement), steps);
      var o := s.orders[id];
      (o.schedule == AtTime || o.schedule == Standing) && ClockAt(clock, steps) < o.requestedAt ==>
        && o.status != Processing && o.status != Booked && o.status != Failed
        && (forall i :: 0 <= i < |s.entries| ==> s.entries[i].order != Some(id))
        && (forall i :: 0 <= i < |s.outbox| ==> s.outbox[i].order != id)
  {
    InitialInv(settlement);
    RunKeeps(Initial(settlement), steps);
    RunOnTime(Initial(settlement), clock, steps);
    var s := Run(Initial(settlement), steps);
    assert OrderOk(s, id);
    assert OnTime(s.orders[id], ClockAt(clock, steps));
    if EntriesOf(s.entries, id) == [] {
      NoEntries(s.entries, id);
    }
    if EventsOf(s.outbox, id) == [] {
      NoEvents(s.outbox, id);
    }
  }

  lemma {:induction false} NoEntries(entries: seq<Entry>, id: Uuid)
    requires EntriesOf(entries, id) == []
    ensures forall i :: 0 <= i < |entries| ==> entries[i].order != Some(id)
  {
    if entries != [] {
      NoEntries(entries[..|entries| - 1], id);
      assert forall i :: 0 <= i < |entries| - 1 ==> entries[i] == entries[..|entries| - 1][i];
    }
  }

  lemma {:induction false} NoEvents(outbox: seq<Event>, id: Uuid)
    requires EventsOf(outbox, id) == []
    ensures forall i :: 0 <= i < |outbox| ==> outbox[i].order != id
  {
    if outbox != [] {
      NoEvents(outbox[..|outbox| - 1], id);
      assert forall i :: 0 <= i < |outbox| - 1 ==> outbox[i] == outbox[..|outbox| - 1][i];
    }
  }
}
