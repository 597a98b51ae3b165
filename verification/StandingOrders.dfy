/** Recurring payments: creation, materialisation, update and cancellation (standing_orders.go, payment_worker.go). */
module StandingOrders {
  import opened Wrappers
  import opened Calendar

  type Uuid = nat

  datatype OrderStatus = Active | Paused | Cancelled | Completed

  /** `endDate` is a DATE column: a day number. */
  datatype StandingOrder = StandingOrder(
    owner: Uuid, start: Instant, frequency: Frequency, endDate: Option<nat>, maxOccurrences: Option<int>,
    occurrences: nat, next: Instant, status: OrderStatus)

  const SECOND_NANOS := 1_000_000_000

  /** "standing:<id>:<RFC 3339 time>", which drops fractions of a second. */
  datatype Key = Key(standing: Uuid, day: nat, second: nat)

  datatype Payment = Payment(standing: Uuid, at: Instant, key: Key)

  datatype Book = Book(rows: map<Uuid, StandingOrder>, payments: seq<Payment>)

  function KeyOf(id: Uuid, at: Instant): Key {
    Key(id, at.day, at.nanos / SECOND_NANOS)
  }

  /** Strictly after midnight of a day, which is what a DATE reads back as. */
  predicate AfterMidnight(t: Instant, day: nat) {
    Before(Instant(day, 0), t)
  }

  predicate ShouldComplete(order: StandingOrder, next: Instant) {
    || (order.maxOccurrences.Some? && order.occurrences + 1 >= order.maxOccurrences.value)
    || (order.endDate.Some? && AfterMidnight(next, order.endDate.value))
  }

  function Advance(order: StandingOrder): StandingOrder {
    var next := Next(order.next, order.frequency);
    order.(occurrences := order.occurrences + 1, next := next,
           status := if ShouldComplete(order, next) then Completed else Active)
  }

  predicate IsDue(order: StandingOrder, now: Instant) {
    order.status.Active? && !Before(now, order.next)
  }

  // ----- steps -----

  datatype Step =
    | Create(id: Uuid, owner: Uuid, start: Instant, frequency: Frequency, end: Option<Instant>, max: Option<int>)
    | Materialise(id: Uuid, now: Instant)
    | Update(id: Uuid, owner: Uuid, status: OrderStatus, endDate: Option<nat>, max: Option<int>)
    | Cancel(id: Uuid, owner: Uuid)

  /** The CHECK constraints of the table. */
  predicate LegalRow(order: StandingOrder) {
    && (order.maxOccurrences.Some? ==> order.maxOccurrences.value > 0)
    && (order.endDate.Some? ==> order.endDate.value >= order.start.day)
  }

  function NewRow(owner: Uuid, start: Instant, frequency: Frequency, end: Option<Instant>, max: Option<int>): StandingOrder {
    StandingOrder(owner, start, frequency, if end.Some? then Some(end.value.day) else None, max, 0, start, Active)
  }

  function Updated(order: StandingOrder, status: OrderStatus, endDate: Option<nat>, max: Option<int>): StandingOrder {
    order.(status := status, endDate := endDate, maxOccurrences := max)
  }

  /** The UPDATE finds its row, and the CHECK constraints let it pass. The old status does not matter. */
  predicate Accepts(b: Book, id: Uuid, owner: Uuid, status: OrderStatus, endDate: Option<nat>, max: Option<int>) {
    && id in b.rows && b.rows[id].owner == owner && (status.Active? || status.Paused?)
    && LegalRow(Updated(b.rows[id], status, endDate, max))
  }

  function Apply(b: Book, step: Step): Book {
    match step
    case Create(id, owner, start, frequency, end, max) =>
      var row := NewRow(owner, start, frequency, end, max);
      if id in b.rows || !LegalRow(row) || (end.Some? && Before(end.value, start)) || PaymentsOf(b.payments, id) != [] then b
      else b.(rows := b.rows[id := row])
    case Materialise(id, now) =>
      if id !in b.rows || !IsDue(b.rows[id], now) then b
      else
        var at := b.rows[id].next;
        Book(b.rows[id := Advance(b.rows[id])], b.payments + [Payment(id, at, KeyOf(id, at))])
    case Update(id, owner, status, endDate, max) =>
      if !Accepts(b, id, owner, status, endDate, max) then b
      else b.(rows := b.rows[id := Updated(b.rows[id], status, endDate, max)])
    case Cancel(id, owner) =>
      if id in b.rows && b.rows[id].owner == owner && (b.rows[id].status.Active? || b.rows[id].status.Paused?)
      then b.(rows := b.rows[id := b.rows[id].(status := Cancelled)]) else b
  }

  function Run(b: Book, steps: seq<Step>): Book
    decreases |steps|
  {
    if steps == [] then b else Run(Apply(b, steps[0]), steps[1..])
  }

  /** The payments of one standing order, in order of creation. */
  function PaymentsOf(payments: seq<Payment>, id: Uuid): seq<Payment> {
    if payments == [] then []
    else
      var last := payments[|payments| - 1];
      PaymentsOf(payments[..|payments| - 1], id) + if last.standing == id then [last] else []
  }

  lemma PaymentsAppend(payments: seq<Payment>, p: Payment, id: Uuid)
    ensures PaymentsOf(payments + [p], id) == PaymentsOf(payments, id) + if p.standing == id then [p] else []
  {
    assert (payments + [p])[..|payments|] == payments;
  }

  // ----- the invariant of one order -----

  /** The limits leave room for occurrence number k (counted from 0). */
  predicate OpenAt(order: StandingOrder, k: nat) {
    && (order.maxOccurrences.Some? ==> k < order.maxOccurrences.value)
    && (order.endDate.Some? ==> !AfterMidnight(Execution(order.start, order.frequency, k), order.endDate.value))
  }

  /** The same for the next occurrence, from the row alone: what a caller of the update can check. */
  predicate OpenNow(order: StandingOrder) {
    && (order.maxOccurrences.Some? ==> order.occurrences < order.maxOccurrences.value)
    && (order.endDate.Some? ==> !AfterMidnight(order.next, order.endDate.value))
  }

  /** The history: exactly the calendar's executions, each with its own key. */
  ghost predicate HistoryOk(id: Uuid, order: StandingOrder, made: seq<Payment>) {
    && |made| == order.occurrences
    && order.next == Execution(order.start, order.frequency, order.occurrences)
    && forall k :: 0 <= k < |made| ==>
         var at := Execution(order.start, order.frequency, k);
         made[k] == Payment(id, at, KeyOf(id, at))
  }

  /** Every occurrence after the first one was within the limits, so is the next one of an active order, and a
      completed order has no room for another. */
  ghost predicate LimitsOk(order: StandingOrder) {
    && (order.endDate.Some? ==> order.start.day <= order.endDate.value)
    && (forall k :: 1 <= k < order.occurrences ==> OpenAt(order, k))
    && (order.status.Active? ==> order.occurrences == 0 || OpenAt(order, order.occurrences))
    && (order.status.Completed? ==> order.occurrences >= 1 && !OpenAt(order, order.occurrences))
  }

  ghost predicate RowOk(b: Book, id: Uuid)
    requires id in b.rows
  {
    HistoryOk(id, b.rows[id], PaymentsOf(b.payments, id)) && LimitsOk(b.rows[id])
  }

  ghost predicate Inv(b: Book) {
    forall id {:trigger RowOk(b, id)} :: id in b.rows ==> RowOk(b, id)
  }

  /** What an update must leave room for: the next occurrence of an order that goes on, and the last one made of an
      order that pauses. The first occurrence is always made. */
  predicate RoomFor(order: StandingOrder) {
    if order.status.Active? then order.occurrences == 0 || OpenNow(order)
    else order.occurrences <= 1 || OpenAt(order, order.occurrences - 1)
  }

  predicate SafeUpdate(b: Book, step: Step) {
    step.Update? && step.id in b.rows && Apply(b, step) != b ==> RoomFor(Apply(b, step).rows[step.id])
  }

  predicate SafeRun(b: Book, steps: seq<Step>)
    decreases |steps|
  {
    steps == [] || (SafeUpdate(b, steps[0]) && SafeRun(Apply(b, steps[0]), steps[1..]))
  }

  /** Room for one occurrence is room for all earlier ones. */
  lemma {:induction false} OpenIsMonotone(order: StandingOrder, j: nat, k: nat)
    requires j <= k && OpenAt(order, k)
    ensures OpenAt(order, j)
  {
    if j < k {
      ExecutionsIncrease(order.start, order.frequency, j, k);
    }
  }

  lemma HistoryAdvances(id: Uuid, order: StandingOrder, made: seq<Payment>)
    requires HistoryOk(id, order, made)
    ensures HistoryOk(id, Advance(order), made + [Payment(id, order.next, KeyOf(id, order.next))])
  {
  }

  lemma AdvanceKeeps(id: Uuid, order: StandingOrder, made: seq<Payment>)
    requires HistoryOk(id, order, made) && LimitsOk(order) && order.status.Active?
    ensures HistoryOk(id, Advance(order), made + [Payment(id, order.next, KeyOf(id, order.next))])
    ensures LimitsOk(Advance(order))
  {
    HistoryAdvances(id, order, made);
    var after := Advance(order);
    forall k | 1 <= k <= after.occurrences ensures OpenAt(after, k) <==> OpenAt(order, k) {
    }
  }

  /** Updating keeps the history, and keeps the limits exactly when it leaves room. */
  lemma {:induction false} UpdateKeepsIffRoom(id: Uuid, order: StandingOrder, made: seq<Payment>, status: OrderStatus,
                                              endDate: Option<nat>, max: Option<int>)
    requires HistoryOk(id, order, made)
    requires status.Active? || status.Paused?
    requires LegalRow(Updated(order, status, endDate, max))
    ensures var after := Updated(order, status, endDate, max);
      HistoryOk(id, after, made) && (LimitsOk(after) <==> RoomFor(after))
  {
    var after := Updated(order, status, endDate, max);
    assert OpenNow(after) <==> OpenAt(after, order.occurrences);
    var last := if status.Active? then order.occurrences else order.occurrences - 1;
    if RoomFor(after) && last >= 1 {
      forall k | 1 <= k < order.occurrences ensures OpenAt(after, k) {
        OpenIsMonotone(after, k, last);
      }
    }
  }

  /** Otherwise the very next materialisation oversteps the limits. */
  lemma ClosedUpdateOvershoots(id: Uuid, order: StandingOrder, made: seq<Payment>, endDate: Option<nat>, max: Option<int>)
    requires HistoryOk(id, order, made) && order.occurrences > 0
    requires !OpenNow(Updated(order, Active, endDate, max))
    ensures var after := Advance(Updated(order, Active, endDate, max));
      || (max.Some? && after.occurrences > max.value)
      || (endDate.Some? && AfterMidnight(Execution(order.start, order.frequency, after.occurrences - 1), endDate.value))
  {
  }

  /** The row of one order is in order after every step that does not update it. */
  lemma StepKeepsRow(b: Book, step: Step, id: Uuid)
    requires id in b.rows && RowOk(b, id) && !(step.Update? && step.id == id)
    ensures id in Apply(b, step).rows && RowOk(Apply(b, step), id)
    ensures Apply(b, step).rows[id].endDate == b.rows[id].endDate
    ensures Apply(b, step).rows[id].maxOccurrences == b.rows[id].maxOccurrences
  {
    var after := Apply(b, step);
    match step
    case Materialise(other, now) =>
      if after != b {
        var at := b.rows[other].next;
        PaymentsAppend(b.payments, Payment(other, at, KeyOf(other, at)), id);
        if id == other {
          AdvanceKeeps(id, b.rows[id], PaymentsOf(b.payments, id));
        }
      }
    case Cancel(other, owner) =>
      assert forall k :: OpenAt(after.rows[id], k) <==> OpenAt(b.rows[id], k);
    case _ =>
  }

  lemma StepKeeps(b: Book, step: Step)
    requires Inv(b) && SafeUpdate(b, step)
    ensures Inv(Apply(b, step))
  {
    var after := Apply(b, step);
    forall id | id in after.rows ensures RowOk(after, id) {
      if id in b.rows {
        assert RowOk(b, id);
        if step.Update? && step.id == id {
          if after != b {
            UpdateKeepsIffRoom(id, b.rows[id], PaymentsOf(b.payments, id), step.status, step.endDate, step.max);
          }
        } else {
          StepKeepsRow(b, step, id);
        }
      }
    }
  }

  lemma {:induction false} RunKeeps(b: Book, steps: seq<Step>)
    requires Inv(b) && SafeRun(b, steps)
    ensures Inv(Run(b, steps))
    decreases |steps|
  {
    if steps != [] {
      StepKeeps(b, steps[0]);
      RunKeeps(Apply(b, steps[0]), steps[1..]);
    }
  }

  // ----- headline properties -----

  const EMPTY := Book(map[], [])

  /** Over every run from the empty book in which updates leave room: the count is the number of payments, their
      times are the calendar's executions, their keys differ, none falls on a day after the end date, and there
      are at most max(1, MaxOccurrences) of them. */
  lemma {:induction false} StandingOrderRuns(steps: seq<Step>, id: Uuid)
    requires SafeRun(EMPTY, steps) && id in Run(EMPTY, steps).rows
    ensures var order, made := Run(EMPTY, steps).rows[id], PaymentsOf(Run(EMPTY, steps).payments, id);
      && |made| == order.occurrences
      && (forall k :: 0 <= k < |made| ==> made[k].at == Execution(order.start, order.frequency, k))
      && (forall j, k :: 0 <= j < k < |made| ==> made[j].key != made[k].key)
      && (order.endDate.Some? ==> forall k :: 0 <= k < |made| ==> made[k].at.day <= order.endDate.value)
      && (order.maxOccurrences.Some? ==> |made| <= 1 || |made| <= order.maxOccurrences.value)
  {
    RunKeeps(EMPTY, steps);
    var b := Run(EMPTY, steps);
    assert RowOk(b, id);
    var order, made := b.rows[id], PaymentsOf(b.payments, id);
    forall j, k | 0 <= j < k < |made| ensures made[j].key != made[k].key {
      ExecutionsIncrease(order.start, order.frequency, j, k);
    }
    forall k | 0 <= k < |made| ensures order.endDate.Some? ==> made[k].at.day <= order.endDate.value {
      assert k >= 1 ==> OpenAt(order, k);
    }
    assert |made| > 1 ==> OpenAt(order, order.occurrences - 1);
  }

  /** The limits that a row states, read off its payments: at most max(1, MaxOccurrences) of them, and none after the
      first one falls after the end date. */
  predicate RespectsLimits(b: Book, id: Uuid) {
    id in b.rows &&
    var order, made := b.rows[id], PaymentsOf(b.payments, id);
    && (order.maxOccurrences.Some? ==> |made| <= 1 || |made| <= order.maxOccurrences.value)
    && (order.endDate.Some? ==> forall k :: 1 <= k < |made| ==> !AfterMidnight(made[k].at, order.endDate.value))
  }

  predicate NoUpdateOf(steps: seq<Step>, id: Uuid) {
    forall i :: 0 <= i < |steps| ==> !(steps[i].Update? && steps[i].id == id)
  }

  predicate RespectsAfter(b: Book, steps: seq<Step>, id: Uuid) {
    RespectsLimits(Run(b, steps), id)
  }

  /** An accepted update, also of a row that an earlier one drove over its limits, is harmless exactly when it leaves
      room: then, and only then, the limits are respected in every continuation that does not update the order again,
      whatever happens to other orders. */
  lemma {:induction false} UpdateHarmlessIffRoom(b: Book, id: Uuid, owner: Uuid, status: OrderStatus,
                                                 endDate: Option<nat>, max: Option<int>)
    requires Accepts(b, id, owner, status, endDate, max) && HistoryOk(id, b.rows[id], PaymentsOf(b.payments, id))
    ensures var after := Apply(b, Update(id, owner, status, endDate, max));
      && id in after.rows
      && (RoomFor(after.rows[id]) <==> forall steps :: NoUpdateOf(steps, id) ==> RespectsAfter(after, steps, id))
  {
    var after := Apply(b, Update(id, owner, status, endDate, max));
    UpdateKeepsIffRoom(id, b.rows[id], PaymentsOf(b.payments, id), status, endDate, max);
    if RoomFor(after.rows[id]) {
      forall steps | NoUpdateOf(steps, id) ensures RespectsAfter(after, steps, id) {
        GoodRowRespects(after, steps, id);
      }
    } else {
      var bad := NoRoomOversteps(after, id);
    }
  }

  lemma {:induction false} GoodRowRespects(b: Book, steps: seq<Step>, id: Uuid)
    requires id in b.rows && RowOk(b, id) && NoUpdateOf(steps, id)
    ensures RespectsAfter(b, steps, id)
    decreases |steps|
  {
    if steps == [] {
      LimitsMean(b, id);
    } else {
      StepKeepsRow(b, steps[0], id);
      GoodRowRespects(Apply(b, steps[0]), steps[1..], id);
    }
  }

  lemma LimitsMean(b: Book, id: Uuid)
    requires id in b.rows && HistoryOk(id, b.rows[id], PaymentsOf(b.payments, id))
    ensures RespectsLimits(b, id) <==> forall k :: 1 <= k < b.rows[id].occurrences ==> OpenAt(b.rows[id], k)
  {
    var order, made := b.rows[id], PaymentsOf(b.payments, id);
    if forall k :: 1 <= k < order.occurrences ==> OpenAt(order, k) {
      assert |made| > 1 ==> OpenAt(order, order.occurrences - 1);
      forall k | 1 <= k < |made| && order.endDate.Some? ensures !AfterMidnight(made[k].at, order.endDate.value) {
        assert OpenAt(order, k) && made[k].at == Execution(order.start, order.frequency, k);
      }
    }
    if RespectsLimits(b, id) {
      forall k | 1 <= k < order.occurrences ensures OpenAt(order, k) {
        assert made[k].at == Execution(order.start, order.frequency, k);
      }
    }
  }

  /** Without room the limits are overstepped already, or by the next materialisation. */
  lemma NoRoomOversteps(b: Book, id: Uuid) returns (steps: seq<Step>)
    requires id in b.rows && HistoryOk(id, b.rows[id], PaymentsOf(b.payments, id)) && !RoomFor(b.rows[id])
    requires b.rows[id].status.Active? || b.rows[id].status.Paused?
    ensures NoUpdateOf(steps, id) && !RespectsAfter(b, steps, id)
  {
    var order := b.rows[id];
    if order.status.Active? {
      var step := Materialise(id, order.next);
      steps := [step];
      var t := Apply(b, step);
      assert Run(b, steps) == Run(t, []);
      PaymentsAppend(b.payments, Payment(id, order.next, KeyOf(id, order.next)), id);
      assert HistoryOk(id, t.rows[id], PaymentsOf(t.payments, id));
      LimitsMean(t, id);
      assert !OpenAt(t.rows[id], order.occurrences);
    } else {
      steps := [];
      LimitsMean(b, id);
    }
  }

  /** One materialisation, read off the columns: only an active order whose time has come makes a payment, for that very
      time; it is completed exactly when the count has reached the maximum or the next time is past midnight of the end
      date, and otherwise goes on. Nothing else changes. */
  lemma {:induction false} MaterialiseMeans(b: Book, id: Uuid, now: Instant)
    requires id in b.rows
    ensures var row, t := b.rows[id], Apply(b, Materialise(id, now));
      if row.status == Active && (row.next.day < now.day || (row.next.day == now.day && row.next.nanos <= now.nanos)) then
        && id in t.rows && t.rows == b.rows[id := t.rows[id]]
        && t.payments == b.payments + [Payment(id, row.next, Key(id, row.next.day, row.next.nanos / 1_000_000_000))]
        && var q, n := t.rows[id], row.occurrences + 1;
           && q == row.(occurrences := n, next := Next(row.next, row.frequency), status := q.status)
           && q.status == if (row.maxOccurrences.Some? && n >= row.maxOccurrences.value)
                             || (row.endDate.Some? && q.next.day > row.endDate.value)
                             || (row.endDate.Some? && q.next.day == row.endDate.value && q.next.nanos > 0)
                          then Completed else Active
      else t == b
  {
  }

  /** A completed order made exactly as many payments as the limits allow: the first number, at least one, that reaches
      the maximum or whose execution falls after midnight of the end date. */
  lemma {:induction false} CompletedIsExact(steps: seq<Step>, id: Uuid)
    requires SafeRun(EMPTY, steps) && id in Run(EMPTY, steps).rows
    requires Run(EMPTY, steps).rows[id].status.Completed?
    ensures var order, n := Run(EMPTY, steps).rows[id], |PaymentsOf(Run(EMPTY, steps).payments, id)|;
      var end, t := order.endDate, Execution(order.start, order.frequency, n);
      && n >= 1
      && ((order.maxOccurrences.Some? && n >= order.maxOccurrences.value)
          || (end.Some? && (t.day > end.value || (t.day == end.value && t.nanos > 0))))
      && (order.maxOccurrences.Some? ==> n == 1 || n <= order.maxOccurrences.value)
      && (end.Some? ==> forall k :: 1 <= k < n ==>
            var t := Execution(order.start, order.frequency, k);
            t.day < end.value || (t.day == end.value && t.nanos == 0))
  {
    RunKeeps(EMPTY, steps);
    var order, n := Run(EMPTY, steps).rows[id], |PaymentsOf(Run(EMPTY, steps).payments, id)|;
    assert RowOk(Run(EMPTY, steps), id);
    assert n > 1 ==> OpenAt(order, n - 1);
    forall k | 1 <= k < n && order.endDate.Some?
      ensures var t := Execution(order.start, order.frequency, k);
        t.day < order.endDate.value || (t.day == order.endDate.value && t.nanos == 0)
    {
      assert OpenAt(order, k);
    }
  }

  /** A completed or cancelled order creates nothing more, whatever happens, until it is updated. */
  lemma {:induction false} StoppedOrdersStaySilent(b: Book, steps: seq<Step>, id: Uuid)
    requires id in b.rows && (b.rows[id].status.Completed? || b.rows[id].status.Cancelled?)
    requires forall i :: 0 <= i < |steps| ==> !(steps[i].Update? && steps[i].id == id)
    ensures id in Run(b, steps).rows && Run(b, steps).rows[id] == b.rows[id]
    ensures PaymentsOf(Run(b, steps).payments, id) == PaymentsOf(b.payments, id)
    decreases |steps|
  {
    if steps != [] {
      var step := steps[0];
      if step.Materialise? && step.id in b.rows {
        var at := b.rows[step.id].next;
        PaymentsAppend(b.payments, Payment(step.id, at, KeyOf(step.id, at)), id);
      }
      StoppedOrdersStaySilent(Apply(b, step), steps[1..], id);
    }
  }

  /** The update has no status guard: a completed order can be revived with its old limit, and then exceeds it. */
  lemma UpdateRevivesCompleted(id: Uuid, owner: Uuid)
    ensures var start, later := Instant(0, 0), Instant(100, 0);
      var created := Apply(EMPTY, Create(id, owner, start, Weekly, None, Some(1)));
      var completed := Apply(created, Materialise(id, later));
      var revived := Apply(completed, Update(id, owner, Active, None, Some(1)));
      var overshot := Apply(revived, Materialise(id, later));
      && id in completed.rows && completed.rows[id].status.Completed?
      && id in overshot.rows && overshot.rows[id].maxOccurrences == Some(1)
      && |PaymentsOf(overshot.payments, id)| == 2
  {
    var start, later := Instant(0, 0), Instant(100, 0);
    var created := Apply(EMPTY, Create(id, owner, start, Weekly, None, Some(1)));
    assert created == Book(map[id := NewRow(owner, start, Weekly, None, Some(1))], []);
    var completed := Apply(created, Materialise(id, later));
    var revived := Apply(completed, Update(id, owner, Active, None, Some(1)));
    PaymentsAppend([], Payment(id, start, KeyOf(id, start)), id);
    PaymentsAppend(completed.payments, Payment(id, Instant(7, 0), KeyOf(id, Instant(7, 0))), id);
  }

  // ----- the program -----

  class StandingOrderStore {
    var book: Book

    constructor ()
      ensures book == EMPTY && Inv(book)
    {
      book := EMPTY;
    }

    /** A start of at least yesterday, an end not before it; the database refuses non-positive limits. `id` is generated. */
    method CreateStandingOrder(id: Uuid, owner: Uuid, start: Instant, frequency: Frequency, end: Option<Instant>,
                               max: Option<int>, yesterday: Instant) returns (ok: bool)
      requires Inv(book)
      modifies this
      ensures Inv(book)
      ensures book == if ok then Apply(old(book), Create(id, owner, start, frequency, end, max)) else old(book)
      ensures ok ==>
                && (start.day > yesterday.day || (start.day == yesterday.day && start.nanos >= yesterday.nanos))
                && (end.Some? ==> start.day < end.value.day || (start.day == end.value.day && start.nanos <= end.value.nanos))
                && (max.Some? ==> max.value >= 1)
      ensures ok ==>
                && id !in old(book).rows && book.payments == old(book).payments
                && book.rows == old(book).rows[id :=
                     StandingOrder(owner, start, frequency, if end.Some? then Some(end.value.day) else None, max, 0, start, Active)]
    {
      if Before(start, yesterday) || (end.Some? && Before(end.value, start)) {
        return false;
      }
      var refused: bool := *;
      var row := NewRow(owner, start, frequency, end, max);
      if refused || id in book.rows || PaymentsOf(book.payments, id) != [] || !LegalRow(row) {
        return false;
      }
      StepKeeps(book, Create(id, owner, start, frequency, end, max));
      book := book.(rows := book.rows[id := row]);
      ok := true;
    }

    /** UPDATE by id and owner, with no guard on the old status. It keeps the books in order exactly when it leaves
        room. */
    method UpdateStandingOrder(id: Uuid, owner: Uuid, status: OrderStatus, endDate: Option<nat>, max: Option<int>)
      returns (ok: bool)
      requires Inv(book)
      modifies this
      ensures book == if ok then Apply(old(book), Update(id, owner, status, endDate, max)) else old(book)
      ensures ok ==>
                && id in old(book).rows && old(book).rows[id].owner == owner && (status == Active || status == Paused)
                && (max.Some? ==> max.value >= 1) && (endDate.Some? ==> endDate.value >= old(book).rows[id].start.day)
                && book.payments == old(book).payments
                && book.rows == old(book).rows[id :=
                     old(book).rows[id].(status := status, endDate := endDate, maxOccurrences := max)]
      ensures Inv(book) <==> !ok || SafeUpdate(old(book), Update(id, owner, status, endDate, max))
    {
      if !status.Active? && !status.Paused? {
        return false;
      }
      var refused: bool := *;
      if refused || id !in book.rows || book.rows[id].owner != owner || !LegalRow(Updated(book.rows[id], status, endDate, max)) {
        return false;
      }
      ghost var before := book;
      assert RowOk(before, id);
      UpdateKeepsIffRoom(id, before.rows[id], PaymentsOf(before.payments, id), status, endDate, max);
      if SafeUpdate(before, Update(id, owner, status, endDate, max)) {
        StepKeeps(before, Update(id, owner, status, endDate, max));
      }
      book := book.(rows := book.rows[id := Updated(book.rows[id], status, endDate, max)]);
      assert Inv(book) ==> RowOk(book, id);
      ok := true;
    }

    method CancelStandingOrder(id: Uuid, owner: Uuid) returns (ok: bool)
      requires Inv(book)
      modifies this
      ensures Inv(book)
      ensures book == if ok then Apply(old(book), Cancel(id, owner)) else old(book)
      ensures ok ==>
                && id in old(book).rows && old(book).rows[id].owner == owner
                && (old(book).rows[id].status == Active || old(book).rows[id].status == Paused)
                && book.payments == old(book).payments
                && book.rows == old(book).rows[id := old(book).rows[id].(status := Cancelled)]
    {
      var refused: bool := *;
      if refused || id !in book.rows || book.rows[id].owner != owner
         || !(book.rows[id].status.Active? || book.rows[id].status.Paused?) {
        return false;
      }
      StepKeeps(book, Cancel(id, owner));
      book := book.(rows := book.rows[id := book.rows[id].(status := Cancelled)]);
      ok := true;
    }

    /** The earliest of some rows, by execution time and then by id. */
    method Earliest(ids: set<Uuid>) returns (first: Uuid)
      requires ids != {} && ids <= book.rows.Keys
      ensures first in ids && forall id :: id in ids && id != first ==> Earlier(book, first, id)
    {
      first :| first in ids;
      var rest := ids - {first};
      while rest != {}
        invariant first in ids && rest <= ids - {first}
        invariant forall id :: id in ids && id != first && id !in rest ==> Earlier(book, first, id)
        decreases |rest|
      {
        var id :| id in rest;
        rest := rest - {id};
        if Earlier(book, id, first) {
          first := id;
        }
      }
    }

    /**
      ClaimDueStandingOrders: the `limit` earliest due rows in order, apart from those that others have locked. An
      unlocked due row is passed over only when the batch is full, and then it is later than every claimed one.
     */
    method ClaimDue(limit: nat, now: Instant, locked: set<Uuid>) returns (claimed: seq<Uuid>)
      ensures IsClaim(book, limit, now, locked, claimed) && |claimed| <= limit
      ensures forall id :: id in claimed ==>
                && id !in locked && id in book.rows && book.rows[id].status == Active
                && var t := book.rows[id].next; t.day < now.day || (t.day == now.day && t.nanos <= now.nanos)
      ensures forall i, j :: 0 <= i < j < |claimed| ==>
                && claimed[i] in book.rows && claimed[j] in book.rows
                && var t, u := book.rows[claimed[i]].next, book.rows[claimed[j]].next;
                   || t.day < u.day || (t.day == u.day && t.nanos < u.nanos) || (t == u && claimed[i] < claimed[j])
      ensures forall id ::
                id in book.rows && id !in locked && id !in claimed && book.rows[id].status == Active ==>
                  var t := book.rows[id].next;
                  t.day < now.day || (t.day == now.day && t.nanos <= now.nanos) ==> |claimed| == limit
    {
      var rest := set id | id in book.rows && IsDue(book.rows[id], now) && id !in locked;
      claimed := [];
      while rest != {} && |claimed| < limit
        invariant |claimed| <= limit
        invariant forall id :: id in claimed || id in rest <==> id in book.rows && IsDue(book.rows[id], now) && id !in locked
        invariant forall i, j :: 0 <= i < j < |claimed| ==> Earlier(book, claimed[i], claimed[j])
        invariant forall id, other :: id in rest && other in claimed ==> Earlier(book, other, id)
        decreases |rest|
      {
        var first := Earliest(rest);
        rest, claimed := rest - {first}, claimed + [first];
      }
    }
  }

  /** The earliest due rows that nobody else has locked, in order, and all of them unless the limit is reached. */
  predicate IsClaim(b: Book, limit: nat, now: Instant, locked: set<Uuid>, claimed: seq<Uuid>) {
    && |claimed| <= limit
    && (forall id :: id in claimed ==> id !in locked && id in b.rows && IsDue(b.rows[id], now))
    && (forall i, j :: 0 <= i < j < |claimed| ==> Earlier(b, claimed[i], claimed[j]))
    && (forall id :: id in b.rows && IsDue(b.rows[id], now) && id !in locked && id !in claimed ==>
          |claimed| == limit && forall other :: other in claimed ==> Earlier(b, other, id))
  }

  /** ORDER BY next_execution_at, id. */
  predicate Earlier(b: Book, x: Uuid, y: Uuid) {
    && x in b.rows && y in b.rows
    && (Before(b.rows[x].next, b.rows[y].next) || (b.rows[x].next == b.rows[y].next && x < y))
  }
}
