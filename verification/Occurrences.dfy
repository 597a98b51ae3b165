/**
  Standing orders and the payment core as one machine: the materialised occurrences are payment orders under the same
  unique (owner, key) as the orders that customers create (payment_worker.go, standing_orders.go).
 */
module Occurrences {
  import opened Wrappers
  import opened Posting
  import opened Lifecycle
  import Decimal
  import opened Calendar
  import B = Bank
  import BI = BankInvariant
  import BankPreservation
  import opened BankRuns
  import opened PaymentSystem
  import Creation
  import S = StandingOrders

  /** What a standing order passes on to its payments. */
  datatype Template = Template(
    source: Uuid, beneficiary: Option<Uuid>, name: string, iban: string, bic: Option<string>, amount: int,
    purpose: Option<string>, reference: Option<string>, instant: bool)

  /** `links` holds, for every payment of the book, the id of its payment order. */
  datatype World = World(bank: B.State, book: S.Book, templates: map<Uuid, Template>, links: seq<Uuid>)

  // ----- keys -----

  /** "standing:<id>:<time>", the time as in RFC 3339. */
  function KeyText(key: S.Key): string {
    "standing:" + (Decimal.Digits(key.standing) + [':'] + Rfc3339(key.day, key.second))
  }

  lemma {:induction false} KeyTextInjective(a: S.Key, b: S.Key)
    requires KeyText(a) == KeyText(b)
    ensures a == b
  {
    var timeA, timeB := Rfc3339(a.day, a.second), Rfc3339(b.day, b.second);
    assert KeyText(a)[9..] == Decimal.Digits(a.standing) + [':'] + timeA;
    assert KeyText(b)[9..] == Decimal.Digits(b.standing) + [':'] + timeB;
    Decimal.SplitUnique(Decimal.Digits(a.standing), Decimal.Digits(b.standing), ':', timeA, timeB);
    Decimal.DigitsInjective(a.standing, b.standing);
    Rfc3339Injective(a.day, a.second, b.day, b.second);
  }

  /** The text of a key, for a date and a time of day. */
  lemma {:induction false} KeyTextOfDate(id: Uuid, year: nat, month: nat, day: nat, hour: nat, minute: nat, second: nat)
    requires 1 <= month <= 12 && 1 <= day <= MonthLength(12 * year + month - 1) && minute < 60 && second < 60
    ensures KeyText(S.Key(id, MonthStart(12 * year + month - 1) + day - 1, 3600 * hour + 60 * minute + second))
         == "standing:" + (Decimal.Digits(id) + [':'] + (Decimal.Field(year, 4) + ['-'] + (Decimal.Field(month, 2) + ['-']
            + (Decimal.Field(day, 2) + ['T'] + (Decimal.Field(hour, 2) + [':'] + (Decimal.Field(minute, 2) + [':']
            + (Decimal.Field(second, 2) + ['Z'])))))))
  {
    hide Decimal.Field, Rfc3339;
    Rfc3339OfDate(year, month, day, hour, minute, second);
  }

  function Nanos(t: Instant): int {
    t.day * DAY_NANOS + t.nanos
  }

  /** The key of the next occurrence. */
  function NextKey(id: Uuid, row: S.StandingOrder): string {
    KeyText(S.KeyOf(id, row.next))
  }

  /** The row that the worker inserts. */
  function OccurrenceOrder(id: Uuid, row: S.StandingOrder, t: Template): B.PaymentOrder {
    B.PaymentOrder(row.owner, t.source, t.beneficiary, t.name, t.iban, t.bic, t.amount,
                   if t.beneficiary.Some? then B.Internal else if t.instant then B.SepaInstant else B.Sepa,
                   B.Standing, t.purpose, t.reference, NextKey(id, row), Nanos(row.next),
                   if t.beneficiary.Some? then B.Match else B.Other, false, Scheduled, None, None, 0, None)
  }

  // ----- steps -----

  /** The checks on accounts and amount when a standing order is created. */
  predicate Rooted(s: B.State, owner: Uuid, t: Template) {
    && t.amount > 0 && B.Deliverable(s, owner, t.source)
    && (t.beneficiary.Some? ==>
          && t.beneficiary.value in s.accounts && t.beneficiary.value != t.source
          && !s.accounts[t.beneficiary.value].isSystem)
  }

  function Referenced(t: Template): set<Uuid> {
    {t.source} + if t.beneficiary.Some? then {t.beneficiary.value} else {}
  }

  datatype Step =
    | BankStep(step: B.Step)
    | CreateStanding(id: Uuid, owner: Uuid, start: Instant, frequency: Frequency, end: Option<Instant>, max: Option<int>, template: Template)
    | UpdateStanding(id: Uuid, owner: Uuid, status: S.OrderStatus, endDate: Option<nat>, max: Option<int>, amount: int, purpose: Option<string>)
    | CancelStanding(id: Uuid, owner: Uuid)
    | Materialise(batch: seq<(Uuid, Uuid)>, now: Instant)

  /** INSERT of the occurrence and UPDATE of its standing order; either may fail. */
  function MaterialiseOne(w: World, id: Uuid, order: Uuid, now: Instant): Option<World> {
    if id !in w.book.rows || id !in w.templates || !S.IsDue(w.book.rows[id], now) then None
    else
      var o := OccurrenceOrder(id, w.book.rows[id], w.templates[id]);
      if !B.Insertable(w.bank, order, o) then None
      else Some(w.(bank := B.Apply(w.bank, B.InsertOrder(order, o)), book := S.Apply(w.book, S.Materialise(id, now)),
                   links := w.links + [order]))
  }

  /** One transaction over a batch of standing orders, each with the id of its new payment order: all or nothing. */
  function MaterialiseAll(w: World, batch: seq<(Uuid, Uuid)>, now: Instant): Option<World>
    decreases |batch|
  {
    if batch == [] then Some(w)
    else
      match MaterialiseOne(w, batch[0].0, batch[0].1, now)
      case None => None
      case Some(t) => MaterialiseAll(t, batch[1..], now)
  }

  function Apply(w: World, step: Step): World {
    match step
    case BankStep(b) => w.(bank := B.Apply(w.bank, b))
    case CreateStanding(id, owner, start, frequency, end, max, t) =>
      var book := S.Apply(w.book, S.Create(id, owner, start, frequency, end, max));
      if book == w.book || !Rooted(w.bank, owner, t) then w
      else World(B.Apply(w.bank, B.Pin(Referenced(t))), book, w.templates[id := t], w.links)
    case UpdateStanding(id, owner, status, endDate, max, amount, purpose) =>
      if amount <= 0 || !S.Accepts(w.book, id, owner, status, endDate, max) || id !in w.templates then w
      else w.(book := S.Apply(w.book, S.Update(id, owner, status, endDate, max)),
              templates := w.templates[id := w.templates[id].(amount := amount, purpose := purpose)])
    case CancelStanding(id, owner) => w.(book := S.Apply(w.book, S.Cancel(id, owner)))
    case Materialise(batch, now) => MaterialiseAll(w, batch, now).GetOr(w)
  }

  function Run(w: World, steps: seq<Step>): World
    decreases |steps|
  {
    if steps == [] then w else Run(Apply(w, steps[0]), steps[1..])
  }

  function Initial(settlement: Uuid): World {
    World(B.Initial(settlement), S.EMPTY, map[], [])
  }

  // ----- the invariant -----

  /** The accounts of a standing order exist, and cannot be deleted. */
  ghost predicate TemplateOk(w: World, id: Uuid) {
    && id in w.book.rows && id in w.templates
    && Rooted(w.bank, w.book.rows[id].owner, w.templates[id]) && Referenced(w.templates[id]) <= w.bank.pinned
  }

  /** A payment of the book is a payment order with its owner, key and time. */
  ghost predicate LinkOk(w: World, i: nat)
    requires i < |w.book.payments| && i < |w.links|
  {
    var p := w.book.payments[i];
    && p.standing in w.book.rows && p.key == S.KeyOf(p.standing, p.at) && w.links[i] in w.bank.orders
    && var o := w.bank.orders[w.links[i]];
    && o.owner == w.book.rows[p.standing].owner && o.key == KeyText(p.key)
    && o.schedule.Standing? && o.requestedAt == Nanos(p.at)
  }

  ghost predicate LinksOk(w: World) {
    && |w.links| == |w.book.payments| && Distinct(w.links)
    && forall i {:trigger LinkOk(w, i)} :: 0 <= i < |w.links| ==> LinkOk(w, i)
  }

  ghost predicate TemplatesOk(w: World) {
    w.book.rows.Keys == w.templates.Keys && forall id {:trigger TemplateOk(w, id)} :: id in w.book.rows ==> TemplateOk(w, id)
  }

  ghost predicate History(b: S.Book, id: Uuid) {
    id in b.rows && S.HistoryOk(id, b.rows[id], S.PaymentsOf(b.payments, id))
  }

  ghost predicate HistoriesOk(b: S.Book) {
    forall id {:trigger History(b, id)} :: id in b.rows ==> History(b, id)
  }

  ghost predicate Inv(w: World) {
    BI.Inv(w.bank) && TemplatesOk(w) && LinksOk(w) && HistoriesOk(w.book)
  }

  // ----- preservation -----

  /** The payment core keeps the accounts of templates and the orders behind payments. */
  lemma BankStepKeeps(w: World, step: B.Step)
    requires Inv(w)
    ensures Inv(w.(bank := B.Apply(w.bank, step)))
  {
    hide KeyText;
    var t := w.(bank := B.Apply(w.bank, step));
    BankPreservation.StepKeeps(w.bank, step);
    forall id | id in t.book.rows ensures TemplateOk(t, id) {
      assert TemplateOk(w, id);
      RootedStays(w.bank, step, w.book.rows[id].owner, w.templates[id]);
    }
    forall i | 0 <= i < |t.links| ensures LinkOk(t, i) {
      assert LinkOk(w, i);
      StepMovesOrder(w.bank, step, w.links[i]);
      SameIdentity(w.bank.orders[w.links[i]], t.bank.orders[w.links[i]]);
    }
  }

  lemma SameIdentity(o: B.PaymentOrder, p: B.PaymentOrder)
    requires Identity(o) == Identity(p)
    ensures o.owner == p.owner && o.key == p.key && o.schedule == p.schedule && o.requestedAt == p.requestedAt
  {
    assert Identity(o).owner == o.owner && Identity(p).owner == p.owner;
  }

  lemma RootedStays(s: B.State, step: B.Step, owner: Uuid, t: Template)
    requires BI.Inv(s) && Rooted(s, owner, t) && Referenced(t) <= s.pinned
    ensures Rooted(B.Apply(s, step), owner, t) && Referenced(t) <= B.Apply(s, step).pinned
  {
    BankPreservation.StepKeeps(s, step);
    PinnedGrows(s, step);
    Creation.StepKeepsRead(s, step, t.source, s.accounts[t.source]);
    if t.beneficiary.Some? {
      Creation.StepKeepsRead(s, step, t.beneficiary.value, s.accounts[t.beneficiary.value]);
    }
  }

  lemma PinnedGrows(s: B.State, step: B.Step)
    ensures s.pinned <= B.Apply(s, step).pinned
  {
  }

  lemma MaterialiseOneKeeps(w: World, id: Uuid, order: Uuid, now: Instant)
    requires Inv(w) && MaterialiseOne(w, id, order, now).Some?
    ensures Inv(MaterialiseOne(w, id, order, now).value)
  {
    hide KeyText;
    var t, row := MaterialiseOne(w, id, order, now).value, w.book.rows[id];
    var insert := B.InsertOrder(order, OccurrenceOrder(id, row, w.templates[id]));
    var mid := w.(bank := B.Apply(w.bank, insert));
    BankStepKeeps(w, insert);
    AdvanceKeepsTemplates(mid, t, id);
    HistoriesAdvance(w.book, id, now);
    if order in w.links {
      LinkedOrdersExist(w, order);
    }
    LinkAdded(mid, t, id, order);
  }

  lemma AdvanceKeepsTemplates(w: World, t: World, id: Uuid)
    requires TemplatesOk(w) && id in w.book.rows && t.bank == w.bank && t.templates == w.templates
    requires t.book.rows == w.book.rows[id := S.Advance(w.book.rows[id])]
    ensures TemplatesOk(t)
  {
    forall other | other in t.book.rows ensures TemplateOk(t, other) {
      assert TemplateOk(w, other);
    }
  }

  lemma HistoriesAdvance(b: S.Book, id: Uuid, now: Instant)
    requires HistoriesOk(b) && id in b.rows
    ensures HistoriesOk(S.Apply(b, S.Materialise(id, now)))
  {
    var t, row := S.Apply(b, S.Materialise(id, now)), b.rows[id];
    if t != b {
      var p := S.Payment(id, row.next, S.KeyOf(id, row.next));
      forall other | other in t.rows ensures History(t, other) {
        assert History(b, other);
        S.PaymentsAppend(b.payments, p, other);
        if other == id {
          S.HistoryAdvances(id, row, S.PaymentsOf(b.payments, id));
        }
      }
    }
  }

  /** The new payment is linked to the new order, which no earlier payment has. */
  lemma LinkAdded(mid: World, t: World, id: Uuid, order: Uuid)
    requires LinksOk(mid) && id in mid.book.rows && id in mid.templates && t.bank == mid.bank && order in mid.bank.orders
    requires order !in mid.links
    requires mid.bank.orders[order] == OccurrenceOrder(id, mid.book.rows[id], mid.templates[id])
    requires t.book.payments == mid.book.payments
                                + [S.Payment(id, mid.book.rows[id].next, S.KeyOf(id, mid.book.rows[id].next))]
    requires t.links == mid.links + [order]
    requires forall other :: other in mid.book.rows ==> other in t.book.rows && t.book.rows[other].owner == mid.book.rows[other].owner
    ensures LinksOk(t)
  {
    hide KeyText;
    forall i | 0 <= i < |t.links| ensures LinkOk(t, i) {
      if i < |mid.links| {
        assert LinkOk(mid, i) && t.book.payments[i] == mid.book.payments[i] && t.links[i] == mid.links[i];
      }
    }
  }

  lemma LinkedOrdersExist(w: World, order: Uuid)
    requires LinksOk(w) && order in w.links
    ensures order in w.bank.orders
  {
    var i :| 0 <= i < |w.links| && w.links[i] == order;
    assert LinkOk(w, i);
  }

  lemma {:induction false} MaterialiseAllKeeps(w: World, batch: seq<(Uuid, Uuid)>, now: Instant)
    requires Inv(w) && MaterialiseAll(w, batch, now).Some?
    ensures Inv(MaterialiseAll(w, batch, now).value)
    decreases |batch|
  {
    hide KeyText;
    if batch != [] {
      MaterialiseOneKeeps(w, batch[0].0, batch[0].1, now);
      MaterialiseAllKeeps(MaterialiseOne(w, batch[0].0, batch[0].1, now).value, batch[1..], now);
    }
  }

  lemma CreateStandingKeeps(w: World, id: Uuid, owner: Uuid, start: Instant, frequency: Frequency, end: Option<Instant>,
                            max: Option<int>, template: Template)
    requires Inv(w)
    ensures Inv(Apply(w, CreateStanding(id, owner, start, frequency, end, max, template)))
  {
    var book := S.Apply(w.book, S.Create(id, owner, start, frequency, end, max));
    if book != w.book && Rooted(w.bank, owner, template) {
      var pin := B.Pin(Referenced(template));
      var mid := w.(bank := B.Apply(w.bank, pin));
      BankStepKeeps(w, pin);
      NewRowKeeps(mid, S.Create(id, owner, start, frequency, end, max), template);
    }
  }

  lemma NewRowKeeps(w: World, create: S.Step, template: Template)
    requires Inv(w) && create.Create? && S.Apply(w.book, create) != w.book
    requires Rooted(w.bank, create.owner, template) && Referenced(template) <= w.bank.pinned
    ensures Inv(World(w.bank, S.Apply(w.book, create), w.templates[create.id := template], w.links))
  {
    var t := World(w.bank, S.Apply(w.book, create), w.templates[create.id := template], w.links);
    assert create.id !in w.book.rows && t.book.payments == w.book.payments;
    RowsGrow(w, t);
    TemplateSet(w, t, create.id);
    HistorySet(w.book, t.book, create.id);
  }

  lemma TemplateSet(w: World, t: World, id: Uuid)
    requires TemplatesOk(w) && t.bank == w.bank && TemplateOk(t, id)
    requires t.book.rows == w.book.rows[id := t.book.rows[id]] && t.templates == w.templates[id := t.templates[id]]
    ensures TemplatesOk(t)
  {
    forall other | other in t.book.rows ensures TemplateOk(t, other) {
      assert other != id ==> TemplateOk(w, other);
    }
  }

  lemma HistorySet(b: S.Book, c: S.Book, id: Uuid)
    requires HistoriesOk(b) && c.payments == b.payments && History(c, id) && c.rows == b.rows[id := c.rows[id]]
    ensures HistoriesOk(c)
  {
    forall other | other in c.rows ensures History(c, other) {
      assert other != id ==> History(b, other);
    }
  }

  /** Links depend on the rows only through their owners. */
  lemma RowsGrow(w: World, t: World)
    requires LinksOk(w) && t.bank == w.bank && t.links == w.links && t.book.payments == w.book.payments
    requires forall other :: other in w.book.rows ==> other in t.book.rows && t.book.rows[other].owner == w.book.rows[other].owner
    ensures LinksOk(t)
  {
    forall i | 0 <= i < |t.links| ensures LinkOk(t, i) {
      assert LinkOk(w, i);
    }
  }

  /** A change of one row that touches neither its owner, its calendar nor its counter. */
  lemma RowChangeKeeps(w: World, t: World, id: Uuid)
    requires Inv(w) && id in w.book.rows && id in t.book.rows && id in t.templates
    requires t.bank == w.bank && t.links == w.links && t.book.payments == w.book.payments
    requires t.book.rows == w.book.rows[id := t.book.rows[id]] && t.templates == w.templates[id := t.templates[id]]
    requires var r, q := w.book.rows[id], t.book.rows[id];
      && q.owner == r.owner && q.start == r.start && q.frequency == r.frequency && q.next == r.next && q.occurrences == r.occurrences
    requires t.templates[id].amount > 0
    requires id in w.templates
    requires t.templates[id].source == w.templates[id].source && t.templates[id].beneficiary == w.templates[id].beneficiary
    ensures Inv(t)
  {
    assert TemplateOk(w, id) && History(w.book, id);
    TemplateSet(w, t, id);
    HistorySet(w.book, t.book, id);
    RowsGrow(w, t);
  }

  lemma StepKeeps(w: World, step: Step)
    requires Inv(w)
    ensures Inv(Apply(w, step))
  {
    match step
    case BankStep(b) =>
      BankStepKeeps(w, b);
    case CreateStanding(id, owner, start, frequency, end, max, template) =>
      CreateStandingKeeps(w, id, owner, start, frequency, end, max, template);
    case UpdateStanding(id, owner, status, endDate, max, amount, purpose) =>
      if Apply(w, step) != w {
        RowChangeKeeps(w, Apply(w, step), id);
      }
    case CancelStanding(id, owner) =>
      if Apply(w, step) != w {
        assert TemplateOk(w, id);
        RowChangeKeeps(w, Apply(w, step), id);
      }
    case Materialise(batch, now) =>
      if MaterialiseAll(w, batch, now).Some? {
        MaterialiseAllKeeps(w, batch, now);
      }
  }

  lemma InitialInv(settlement: Uuid)
    ensures Inv(Initial(settlement))
  {
    BankPreservation.InitialInv(settlement);
  }

  lemma {:induction false} RunKeeps(w: World, steps: seq<Step>)
    requires Inv(w)
    ensures Inv(Run(w, steps))
    decreases |steps|
  {
    if steps != [] {
      StepKeeps(w, steps[0]);
      RunKeeps(Apply(w, steps[0]), steps[1..]);
    }
  }

  // ----- occurrences are payment orders -----

  /** Over every run, whatever updates happen: each standing order has made as many payments as it counts, on exactly
      the calendar's executions; and every payment is a payment order of its own, with the owner, the key and the
      execution time of its occurrence. */
  lemma {:induction false} OccurrencesAreOrders(settlement: Uuid, steps: seq<Step>, id: Uuid, i: nat, j: nat)
    requires id in Run(Initial(settlement), steps).book.rows
    ensures var w := Run(Initial(settlement), steps);
      var row, made := w.book.rows[id], S.PaymentsOf(w.book.payments, id);
      && |made| == row.occurrences
      && (forall k :: 0 <= k < |made| ==> made[k].at == Execution(row.start, row.frequency, k))
      && |w.links| == |w.book.payments|
      && (i < |w.links| ==>
            var p := w.book.payments[i];
            && p.standing in w.book.rows && w.links[i] in w.bank.orders
            && w.bank.orders[w.links[i]].owner == w.book.rows[p.standing].owner
            && w.bank.orders[w.links[i]].key == KeyText(S.Key(p.standing, p.at.day, p.at.nanos / 1_000_000_000))
            && w.bank.orders[w.links[i]].requestedAt == p.at.day * 86_400_000_000_000 + p.at.nanos)
      && (i < |w.links| && j < |w.links| && w.links[i] == w.links[j] ==> i == j)
  {
    InitialInv(settlement);
    RunKeeps(Initial(settlement), steps);
    var w := Run(Initial(settlement), steps);
    assert History(w.book, id);
    if i < |w.links| {
      assert LinkOk(w, i);
    }
  }

  // ----- when materialisation succeeds -----

  predicate KeyIsFree(w: World, id: Uuid) {
    id in w.book.rows && B.KeyFree(w.bank, w.book.rows[id].owner, NextKey(id, w.book.rows[id]))
  }

  /** Due orders, each once, each with a new order id of its own. */
  predicate ProperBatch(w: World, batch: seq<(Uuid, Uuid)>, now: Instant) {
    && (forall i :: 0 <= i < |batch| ==>
          batch[i].0 in w.book.rows && S.IsDue(w.book.rows[batch[i].0], now) && batch[i].1 !in w.bank.orders)
    && (forall i, j :: 0 <= i < j < |batch| ==> batch[i].0 != batch[j].0 && batch[i].1 != batch[j].1)
  }

  /** The transaction over a batch of due orders goes through exactly when no payment order of the same owner has the
      key of any of their next occurrences; a single taken key rolls the whole batch back. */
  lemma {:induction false} MaterialisesIffKeysFree(w: World, batch: seq<(Uuid, Uuid)>, now: Instant)
    requires Inv(w) && ProperBatch(w, batch, now)
    ensures MaterialiseAll(w, batch, now).Some? <==> AllKeysFree(w, batch)
    decreases |batch|
  {
    hide KeyText;
    if batch != [] {
      var id, order := batch[0].0, batch[0].1;
      OneIffKeyFree(w, id, order, now);
      if KeyIsFree(w, id) {
        var t := MaterialiseOne(w, id, order, now).value;
        MaterialiseOneKeeps(w, id, order, now);
        RestUnaffected(w, batch, now);
        MaterialisesIffKeysFree(t, batch[1..], now);
        assert AllKeysFree(w, batch) <==> AllKeysFree(t, batch[1..]);
      }
    }
  }

  lemma OneIffKeyFree(w: World, id: Uuid, order: Uuid, now: Instant)
    requires Inv(w) && id in w.book.rows && S.IsDue(w.book.rows[id], now) && order !in w.bank.orders
    ensures MaterialiseOne(w, id, order, now).Some? <==> KeyIsFree(w, id)
  {
    hide KeyText;
    assert TemplateOk(w, id);
  }

  lemma RestUnaffected(w: World, batch: seq<(Uuid, Uuid)>, now: Instant)
    requires ProperBatch(w, batch, now) && batch != [] && MaterialiseOne(w, batch[0].0, batch[0].1, now).Some?
    ensures var t := MaterialiseOne(w, batch[0].0, batch[0].1, now).value;
      && ProperBatch(t, batch[1..], now)
      && (AllKeysFree(w, batch) <==> KeyIsFree(w, batch[0].0) && AllKeysFree(t, batch[1..]))
  {
    RestProper(w, batch, now);
    RestKeys(w, batch, now);
  }

  lemma RestProper(w: World, batch: seq<(Uuid, Uuid)>, now: Instant)
    requires ProperBatch(w, batch, now) && batch != [] && MaterialiseOne(w, batch[0].0, batch[0].1, now).Some?
    ensures ProperBatch(MaterialiseOne(w, batch[0].0, batch[0].1, now).value, batch[1..], now)
  {
    hide KeyText;
    var t, rest := MaterialiseOne(w, batch[0].0, batch[0].1, now).value, batch[1..];
    forall i | 0 <= i < |rest|
      ensures rest[i].0 in t.book.rows && S.IsDue(t.book.rows[rest[i].0], now) && rest[i].1 !in t.bank.orders
    {
      RestRowUnaffected(w, batch, now, i + 1);
      assert rest[i] == batch[i + 1];
    }
  }

  lemma RestKeys(w: World, batch: seq<(Uuid, Uuid)>, now: Instant)
    requires ProperBatch(w, batch, now) && batch != [] && MaterialiseOne(w, batch[0].0, batch[0].1, now).Some?
    ensures AllKeysFree(w, batch)
       <==> KeyIsFree(w, batch[0].0) && AllKeysFree(MaterialiseOne(w, batch[0].0, batch[0].1, now).value, batch[1..])
  {
    hide KeyText;
    var t, rest := MaterialiseOne(w, batch[0].0, batch[0].1, now).value, batch[1..];
    forall i | 0 < i < |batch| ensures rest[i - 1] == batch[i] && (KeyIsFree(t, batch[i].0) <==> KeyIsFree(w, batch[i].0)) {
      RestRowUnaffected(w, batch, now, i);
    }
    assert forall i :: 0 <= i < |rest| ==> rest[i] == batch[i + 1];
  }

  lemma RestRowUnaffected(w: World, batch: seq<(Uuid, Uuid)>, now: Instant, i: nat)
    requires ProperBatch(w, batch, now) && 0 < i < |batch| && MaterialiseOne(w, batch[0].0, batch[0].1, now).Some?
    ensures var t := MaterialiseOne(w, batch[0].0, batch[0].1, now).value;
      && batch[i].0 in t.book.rows && t.book.rows[batch[i].0] == w.book.rows[batch[i].0]
      && batch[i].1 !in t.bank.orders && (KeyIsFree(t, batch[i].0) <==> KeyIsFree(w, batch[i].0))
  {
    hide KeyText;
    OtherKeysUnaffected(w, batch[0].0, batch[0].1, now, batch[i].0);
  }

  predicate AllKeysFree(w: World, batch: seq<(Uuid, Uuid)>) {
    forall i :: 0 <= i < |batch| ==> KeyIsFree(w, batch[i].0)
  }

  lemma OtherKeysUnaffected(w: World, id: Uuid, order: Uuid, now: Instant, other: Uuid)
    requires MaterialiseOne(w, id, order, now).Some? && other != id && other in w.book.rows
    ensures var t := MaterialiseOne(w, id, order, now).value;
      && other in t.book.rows && t.book.rows[other] == w.book.rows[other]
      && (KeyIsFree(t, other) <==> KeyIsFree(w, other))
  {
    hide KeyText;
    var o := OccurrenceOrder(id, w.book.rows[id], w.templates[id]);
    if NextKey(other, w.book.rows[other]) == NextKey(id, w.book.rows[id]) {
      KeyTextInjective(S.KeyOf(other, w.book.rows[other].next), S.KeyOf(id, w.book.rows[id].next));
      assert false;
    }
    KeyFreeAfterInsert(w.bank, order, o, w.book.rows[other].owner, NextKey(other, w.book.rows[other]));
  }

  lemma KeyFreeAfterInsert(s: B.State, order: Uuid, o: B.PaymentOrder, owner: Uuid, key: string)
    requires B.Insertable(s, order, o) && o.key != key
    ensures B.KeyFree(B.Apply(s, B.InsertOrder(order, o)), owner, key) <==> B.KeyFree(s, owner, key)
  {
    var t := B.Apply(s, B.InsertOrder(order, o));
    if B.KeyFree(t, owner, key) {
      forall id | id in s.orders ensures s.orders[id].owner != owner || s.orders[id].key != key {
        assert t.orders[id] == s.orders[id];
      }
    }
  }

  /** A payment order that no standing order made has the key of this one's next occurrence. */
  predicate StrangerHasKey(w: World, id: Uuid, order: Uuid) {
    && id in w.book.rows && order in w.bank.orders && order !in w.links
    && w.bank.orders[order].owner == w.book.rows[id].owner && w.bank.orders[order].key == NextKey(id, w.book.rows[id])
  }

  /** Occurrences never take each other's keys: what is in the way is an order that somebody else created. */
  lemma {:induction false} OnlyStrangersTakeKeys(w: World, id: Uuid)
    requires Inv(w) && id in w.book.rows
    ensures !KeyIsFree(w, id) <==> exists order :: StrangerHasKey(w, id, order)
  {
    var row := w.book.rows[id];
    if !KeyIsFree(w, id) {
      var order :| order in w.bank.orders && w.bank.orders[order].owner == row.owner && w.bank.orders[order].key == NextKey(id, row);
      if order in w.links {
        var i :| 0 <= i < |w.links| && w.links[i] == order;
        OwnKeysDiffer(w, id, i);
        assert false;
      }
      assert StrangerHasKey(w, id, order);
    } else if order :| StrangerHasKey(w, id, order) {
      assert false;
    }
  }

  lemma OwnKeysDiffer(w: World, id: Uuid, i: nat)
    requires Inv(w) && id in w.book.rows && i < |w.links|
    ensures w.links[i] in w.bank.orders && w.bank.orders[w.links[i]].key != NextKey(id, w.book.rows[id])
  {
    hide KeyText;
    assert LinkOk(w, i) && History(w.book, id);
    var p, row := w.book.payments[i], w.book.rows[id];
    if KeyText(p.key) == NextKey(id, row) {
      KeyTextInjective(p.key, S.KeyOf(id, row.next));
      var k := PaymentIndex(w.book.payments, i, id);
      ExecutionsIncrease(row.start, row.frequency, k, row.occurrences);
      assert false;
    }
  }

  lemma {:induction false} PaymentIndex(payments: seq<S.Payment>, i: nat, id: Uuid) returns (k: nat)
    requires i < |payments| && payments[i].standing == id
    ensures k < |S.PaymentsOf(payments, id)| && S.PaymentsOf(payments, id)[k] == payments[i]
  {
    var init := payments[..|payments| - 1];
    if i == |payments| - 1 {
      k := |S.PaymentsOf(init, id)|;
    } else {
      k := PaymentIndex(init, i, id);
    }
  }

  // ----- a taken key blocks for good -----

  ghost predicate KeyTaken(w: World, id: Uuid) {
    id in w.book.rows && !KeyIsFree(w, id)
  }

  /** The standing order's next occurrence is the same one, and it has made the same payments. */
  ghost predicate StandsStill(w: World, t: World, id: Uuid) {
    && id in w.book.rows && id in t.book.rows && t.book.rows[id].owner == w.book.rows[id].owner
    && t.book.rows[id].next == w.book.rows[id].next && t.book.rows[id].occurrences == w.book.rows[id].occurrences
    && S.PaymentsOf(t.book.payments, id) == S.PaymentsOf(w.book.payments, id)
  }

  /** A taken key stays taken, whatever anybody does, updates and cancellations of the standing order included: in
      every later state it stands still, and every batch that contains it is rolled back. */
  lemma {:induction false} BlockedForGood(w: World, steps: seq<Step>, id: Uuid, batch: seq<(Uuid, Uuid)>, now: Instant, i: nat)
    requires KeyTaken(w, id)
    ensures KeyTaken(Run(w, steps), id) && StandsStill(w, Run(w, steps), id)
    ensures i < |batch| && batch[i].0 == id ==> MaterialiseAll(Run(w, steps), batch, now).None?
    decreases |steps|
  {
    if steps == [] {
      if MaterialiseAll(w, batch, now).Some? {
        BlockedBatch(w, batch, now, id);
      }
    } else {
      BlockedStep(w, steps[0], id);
      BlockedForGood(Apply(w, steps[0]), steps[1..], id, batch, now, i);
    }
  }

  /** Any order of the owner under that key is enough. */
  lemma OrderTakesKey(w: World, id: Uuid, order: Uuid, o: B.PaymentOrder)
    requires id in w.book.rows && B.Insertable(w.bank, order, o)
    requires o.owner == w.book.rows[id].owner && o.key == NextKey(id, w.book.rows[id])
    ensures KeyTaken(Apply(w, BankStep(B.InsertOrder(order, o))), id)
  {
    assert B.Apply(w.bank, B.InsertOrder(order, o)).orders[order] == o;
  }

  lemma BlockedStep(w: World, step: Step, id: Uuid)
    requires KeyTaken(w, id)
    ensures KeyTaken(Apply(w, step), id) && StandsStill(w, Apply(w, step), id)
  {
    hide KeyText;
    match step
    case BankStep(b) =>
      TakenStays(w.bank, b, w.book.rows[id].owner, NextKey(id, w.book.rows[id]));
    case Materialise(batch, now) =>
      if MaterialiseAll(w, batch, now).Some? {
        BlockedBatch(w, batch, now, id);
      }
    case _ =>
      BlockedOther(w, step, id);
  }

  lemma BlockedOther(w: World, step: Step, id: Uuid)
    requires id in w.book.rows && !step.BankStep? && !step.Materialise?
    ensures var t := Apply(w, step);
      && t.bank.orders == w.bank.orders && t.book.payments == w.book.payments && StandsStill(w, t, id)
  {
  }

  lemma TakenStays(s: B.State, step: B.Step, owner: Uuid, key: string)
    requires !B.KeyFree(s, owner, key)
    ensures !B.KeyFree(B.Apply(s, step), owner, key)
  {
    var order :| order in s.orders && s.orders[order].owner == owner && s.orders[order].key == key;
    StepMovesOrder(s, step, order);
    SameIdentity(s.orders[order], B.Apply(s, step).orders[order]);
  }

  /** A batch that goes through does not contain the blocked order. */
  lemma {:induction false} BlockedBatch(w: World, batch: seq<(Uuid, Uuid)>, now: Instant, id: Uuid)
    requires KeyTaken(w, id) && MaterialiseAll(w, batch, now).Some?
    ensures forall i :: 0 <= i < |batch| ==> batch[i].0 != id
    ensures KeyTaken(MaterialiseAll(w, batch, now).value, id) && StandsStill(w, MaterialiseAll(w, batch, now).value, id)
    decreases |batch|
  {
    hide KeyText;
    if batch != [] {
      var first, order := batch[0].0, batch[0].1;
      var t, row := MaterialiseOne(w, first, order, now).value, w.book.rows[first];
      TakenStays(w.bank, B.InsertOrder(order, OccurrenceOrder(first, row, w.templates[first])),
                 w.book.rows[id].owner, NextKey(id, w.book.rows[id]));
      S.PaymentsAppend(w.book.payments, S.Payment(first, row.next, S.KeyOf(first, row.next)), id);
      BlockedBatch(t, batch[1..], now, id);
    }
  }

  // ----- the worker -----

  ghost predicate Reaches(w: World, t: World) {
    exists steps :: t == Run(w, steps)
  }

  lemma {:induction false} RunJoins(w: World, first: seq<Step>, second: seq<Step>)
    ensures Run(Run(w, first), second) == Run(w, first + second)
    decreases |first|
  {
    if first == [] {
      assert first + second == second;
    } else {
      RunJoins(Apply(w, first[0]), first[1..], second);
      assert (first + second)[0] == first[0] && (first + second)[1..] == first[1..] + second;
    }
  }

  lemma ReachesRun(w: World, steps: seq<Step>)
    requires Inv(w)
    ensures Reaches(w, Run(w, steps)) && Inv(Run(w, steps))
  {
    RunKeeps(w, steps);
  }

  lemma ReachesStep(w: World, t: World, step: Step)
    requires Reaches(w, t) && Inv(t)
    ensures Reaches(w, Apply(t, step)) && Inv(Apply(t, step))
  {
    var steps :| t == Run(w, steps);
    RunJoins(w, steps, [step]);
    assert Run(t, [step]) == Run(Apply(t, step), []);
    StepKeeps(t, step);
  }

  lemma ReachesSelf(w: World)
    ensures Reaches(w, w)
  {
    assert w == Run(w, []);
  }

  lemma ReachesJoin(w: World, t: World, u: World)
    requires Reaches(w, t) && Reaches(t, u)
    ensures Reaches(w, u)
  {
    var first :| t == Run(w, first);
    var second :| u == Run(t, second);
    RunJoins(w, first, second);
  }

  /** Whatever the payment core can do alone, the machine can do. */
  lemma {:induction false} BankRunLifts(w: World, steps: seq<B.Step>)
    requires Inv(w)
    ensures Reaches(w, w.(bank := B.Run(w.bank, steps))) && Inv(w.(bank := B.Run(w.bank, steps)))
    decreases |steps|
  {
    ReachesSelf(w);
    if steps != [] {
      var next := Apply(w, BankStep(steps[0]));
      ReachesStep(w, w, BankStep(steps[0]));
      BankRunLifts(next, steps[1..]);
      ReachesJoin(w, next, w.(bank := B.Run(w.bank, steps)));
    }
  }

  lemma BankReachLifts(w: World, s: B.State)
    requires Inv(w) && B.Reachable(w.bank, s)
    ensures Reaches(w, w.(bank := s)) && Inv(w.(bank := s))
  {
    var steps :| s == B.Run(w.bank, steps);
    BankRunLifts(w, steps);
  }

  /** The payment core of a later state is a later state of the payment core. */
  lemma {:induction false} ReachesBank(w: World, steps: seq<Step>)
    ensures B.Reachable(w.bank, Run(w, steps).bank)
    decreases |steps|
  {
    ReachableRefl(w.bank);
    if steps != [] {
      match steps[0] {
        case BankStep(b) => ReachableStep(w.bank, w.bank, b);
        case CreateStanding(_, _, _, _, _, _, t) => ReachableStep(w.bank, w.bank, B.Pin(Referenced(t)));
        case Materialise(batch, now) => BatchBank(w, batch, now);
        case _ =>
      }
      ReachesBank(Apply(w, steps[0]), steps[1..]);
      ReachableTrans(w.bank, Apply(w, steps[0]).bank, Run(w, steps).bank);
    }
  }

  lemma {:induction false} BatchBank(w: World, batch: seq<(Uuid, Uuid)>, now: Instant)
    ensures MaterialiseAll(w, batch, now).Some? ==> B.Reachable(w.bank, MaterialiseAll(w, batch, now).value.bank)
    decreases |batch|
  {
    hide KeyText;
    ReachableRefl(w.bank);
    if batch != [] && MaterialiseAll(w, batch, now).Some? {
      var id, order := batch[0].0, batch[0].1;
      var t := MaterialiseOne(w, id, order, now).value;
      ReachableStep(w.bank, w.bank, B.InsertOrder(order, OccurrenceOrder(id, w.book.rows[id], w.templates[id])));
      BatchBank(t, batch[1..], now);
      ReachableTrans(w.bank, t.bank, MaterialiseAll(w, batch, now).value.bank);
    }
  }

  lemma BankReached(w: World, t: World)
    requires Reaches(w, t)
    ensures B.Reachable(w.bank, t.bank)
  {
    var steps :| t == Run(w, steps);
    ReachesBank(w, steps);
  }

  lemma {:induction false} MaterialiseAllThen(w: World, batch: seq<(Uuid, Uuid)>, next: (Uuid, Uuid), now: Instant)
    requires MaterialiseAll(w, batch, now).Some?
    ensures MaterialiseAll(w, batch + [next], now) == MaterialiseOne(MaterialiseAll(w, batch, now).value, next.0, next.1, now)
    decreases |batch|
  {
    hide KeyText;
    if batch == [] {
      assert batch + [next] == [next] && [next][1..] == [];
    } else {
      MaterialiseAllThen(MaterialiseOne(w, batch[0].0, batch[0].1, now).value, batch[1..], next, now);
      assert (batch + [next])[1..] == batch[1..] + [next];
    }
  }

  class Worker {
    const db: Database
    const store: S.StandingOrderStore
    var templates: map<Uuid, Template>
    var links: seq<Uuid>

    constructor (db: Database, store: S.StandingOrderStore)
      requires BI.Inv(db.state) && store.book == S.EMPTY
      ensures this.db == db && this.store == store && Inv(Now())
    {
      this.db, this.store, templates, links := db, store, map[], [];
    }

    function Now(): World
      reads this, db, store
    {
      World(db.state, store.book, templates, links)
    }

    /** Other workers and customers take any number of steps. */
    method Interfere()
      requires Inv(Now())
      modifies this, db, store
      ensures Inv(Now()) && Reaches(old(Now()), Now())
    {
      var others: seq<Step> := *;
      ghost var start := Now();
      ReachesRun(start, others);
      var next := Run(Now(), others);
      db.state, store.book, templates, links := next.bank, next.book, next.templates, next.links;
    }

    /**
      One transaction: claim the earliest due standing orders, and for each insert its payment order and advance it.
      Everything is committed, or nothing when any statement fails, as the insert of a taken key does.
     */
    method MaterializeStandingOrders(limit: nat, now: Instant, locked: set<Uuid>)
      returns (ok: bool, ghost claimed: seq<Uuid>, ghost batch: seq<(Uuid, Uuid)>)
      requires Inv(Now())
      modifies this, db, store
      ensures Inv(Now()) && Reaches(old(Now()), Now())
      ensures S.IsClaim(old(store.book), limit, now, locked, claimed)
      ensures !ok ==> Now() == old(Now())
      ensures ok ==>
                && |batch| == |claimed| && (forall i :: 0 <= i < |batch| ==> batch[i].0 == claimed[i])
                && ProperBatch(old(Now()), batch, now) && MaterialiseAll(old(Now()), batch, now) == Some(Now())
      ensures ok ==> forall id :: id in claimed ==> KeyIsFree(old(Now()), id)
    {
      ghost var start := Now();
      ReachesSelf(start);
      var orders := store.ClaimDue(limit, now, locked);
      claimed, batch := orders, [];
      var w := Now();
      for i := 0 to |orders|
        invariant Now() == start && Partway(start, w, orders, batch, now, i)
      {
        var refused: bool := *;
        if refused {
          return false, claimed, batch;
        }
        ClaimedRow(start, w, orders, batch, limit, now, locked, i);
        var order := Creation.NewOrderId(w.bank);
        var next := InsertAndAdvance(w, orders[i], order, now);
        if next.None? {
          return false, claimed, batch;
        }
        PartwayStep(start, w, orders, batch, limit, now, locked, i, order, next.value);
        w, batch := next.value, batch + [(orders[i], order)];
      }
      BatchEnds(start, w, orders, batch, now);
      db.state, store.book, templates, links := w.bank, w.book, w.templates, w.links;
      ok := true;
    }

    /**
      Recover stale claims, materialise due occurrences, claim due payments and settle them one by one, each in its
      own transaction, the others committing in between. `at` is the state in which the occurrences of the standing
      orders `claimed` were materialised: when the key of one of them is taken, the call stops there, and claims and
      settles nothing. `done` holds, for each order that this call settled, the attempts of the transaction that did.
      A booked order is missing from the count exactly when the answer to its commit was lost, or an earlier, aborted
      attempt had recorded a failure.
     */
    method RunDuePayments(batchSize: int)
      returns (processed: nat, ghost done: map<Uuid, Settlement>, ghost at: World, ghost claimed: seq<Uuid>)
      requires Inv(Now())
      modifies this, db, store
      ensures Inv(Now()) && Reaches(old(Now()), Now()) && Reaches(old(Now()), at)
      ensures AllSettled(old(db.state), db.state, done) && processed == |Counted(done)| <= 100
      ensures Counted(done) <= BookedIn(done)
      ensures forall id :: id in BookedIn(done) ==>
                OrderIs(db.state, id, Booked) && (id !in Counted(done) <==> Missed(done[id]))
      ensures forall id :: id in done && id in old(db.state).orders ==> !Terminal(old(db.state).orders[id].status)
      ensures forall id :: id in claimed ==> id in at.book.rows && (KeyTaken(at, id) ==> processed == 0 && done == map[])
      ensures done != map[] ==>
                exists limit, now, locked ::
                  S.IsClaim(at.book, limit, now, locked, claimed) && limit == if 1 <= batchSize <= 100 then batchSize else 25
      ensures processed <= if 1 <= batchSize <= 100 then batchSize else 25
    {
      ghost var start := Now();
      ReachesSelf(start);
      processed, done, at, claimed := 0, map[], start, [];
      assert Counted(done) == {};
      var limit := BatchLimit(batchSize);
      var ok := Recover();
      if !ok {
        return;
      }
      ghost var before := Now();
      Interfere();
      ReachesJoin(start, before, Now());
      at := Now();
      var now: Instant, locked: set<Uuid> := *, *;
      ok, claimed := MaterialiseDue(limit, now, locked);
      ReachesJoin(start, at, Now());
      if !ok {
        return;
      }
      before := Now();
      processed, done := ClaimAndSettle(limit);
      ReachesJoin(start, before, Now());
      BankReached(start, before);
      SettledFrom(start.bank, before.bank, db.state, done);
    }

    method Recover() returns (ok: bool)
      requires Inv(Now())
      modifies db
      ensures Inv(Now()) && Reaches(old(Now()), Now())
    {
      ghost var start := Now();
      var now: int := *;
      ReachesSelf(start);
      ReachesStep(start, start, BankStep(B.RecoverStale(now, STALE_SECONDS)));
      ok := db.RecoverStalePayments(now);
    }

    /** ClaimDuePaymentOrders and the loop over the claimed orders. */
    method ClaimAndSettle(limit: nat) returns (processed: nat, ghost done: map<Uuid, Settlement>)
      requires Inv(Now())
      modifies this, db, store
      ensures Inv(Now()) && Reaches(old(Now()), Now())
      ensures AllSettled(old(db.state), db.state, done) && processed == |Counted(done)| <= limit
    {
      ghost var start := Now();
      Interfere();
      ghost var before := Now();
      var refused: bool := *;
      if refused {
        assert Counted(map[]) == {};
        return 0, map[];
      }
      var now: int, locked: set<Uuid> := *, *;
      var batch := db.ClaimDuePayments(limit, now, locked);
      ReachesStep(start, before, BankStep(B.ClaimDue(Members(batch), now)));
      ghost var claimed := Now();
      processed, done := SettleBatch(batch);
      ReachesJoin(start, claimed, Now());
      BankReached(start, claimed);
      SettledFrom(start.bank, claimed.bank, db.state, done);
      CountedWithin(batch, done);
    }

    /** One round of the batch loop, after whatever the others have done. */
    method SettleNext(id: Uuid, ghost origin: World, ghost done: map<Uuid, Settlement>)
      returns (counted: bool, ghost next: map<Uuid, Settlement>)
      requires Inv(Now()) && Reaches(origin, Now()) && AllSettled(origin.bank, db.state, done) && id !in done
      modifies this, db, store
      ensures Inv(Now()) && Reaches(origin, Now()) && AllSettled(origin.bank, db.state, next)
      ensures next.Keys <= done.Keys + {id}
      ensures |Counted(next)| == |Counted(done)| + if counted then 1 else 0
    {
      ghost var earlier := Now();
      Interfere();
      ghost var before := Now();
      var outcome;
      ghost var trail;
      counted, outcome, trail := db.SettleClaimed(id);
      BankReached(origin, earlier);
      BankReached(earlier, before);
      next := NextSettled(origin.bank, earlier.bank, before.bank, db.state, id, outcome, trail, done);
      BankReachLifts(before, db.state);
      ReachesJoin(earlier, before, Now());
      ReachesJoin(origin, earlier, Now());
    }

    /**
      Settle a claimed batch order by order, the others acting before, between and after. `done` holds, for every
      order that a transaction of this call settled, the attempts of that transaction. The count is the number of
      those for which no error was reported; all of them were booked by this call, and a booked one is missing from
      the count exactly when the answer to its commit was lost, or an aborted attempt had recorded a failure.
     */
    method SettleBatch(batch: seq<Uuid>) returns (processed: nat, ghost done: map<Uuid, Settlement>)
      requires Inv(Now()) && Distinct(batch)
      modifies this, db, store
      ensures Inv(Now()) && Reaches(old(Now()), Now())
      ensures (forall id :: id in done ==> id in batch) && AllSettled(old(db.state), db.state, done)
      ensures processed == |Counted(done)|
      ensures Counted(done) <= BookedIn(done)
      ensures forall id :: id in BookedIn(done) ==> OrderIs(db.state, id, Booked) && (id !in Counted(done) <==> Missed(done[id]))
    {
      processed, done := 0, map[];
      ReachesSelf(Now());
      assert Counted(done) == {};
      for i := 0 to |batch|
        invariant Inv(Now()) && Reaches(old(Now()), Now())
        invariant AllSettled(old(db.state), db.state, done)
        invariant forall id :: id in done ==> id in batch[..i]
        invariant processed == |Counted(done)|
      {
        NextIsNew(batch, i);
        var counted;
        counted, done := SettleNext(batch[i], old(Now()), done);
        if counted {
          processed := processed + 1;
        }
      }
      BatchResult(old(db.state), db.state, done);
    }

    method MaterialiseDue(limit: nat, now: Instant, locked: set<Uuid>) returns (ok: bool, ghost claimed: seq<Uuid>)
      requires Inv(Now())
      modifies this, db, store
      ensures Inv(Now()) && Reaches(old(Now()), Now())
      ensures S.IsClaim(old(store.book), limit, now, locked, claimed)
      ensures forall id :: id in claimed ==> id in old(store.book).rows && (KeyTaken(old(Now()), id) ==> !ok)
    {
      ghost var batch;
      ok, claimed, batch := MaterializeStandingOrders(limit, now, locked);
    }
  }

  function BatchLimit(batchSize: int): nat {
    if batchSize <= 0 || batchSize > 100 then 25 else batchSize
  }

  lemma SettledFrom(r: B.State, s: B.State, t: B.State, done: map<Uuid, Settlement>)
    requires B.Reachable(r, s) && AllSettled(s, t, done)
    ensures AllSettled(r, t, done)
    ensures forall id :: id in done && id in r.orders ==> !Terminal(r.orders[id].status)
    ensures Counted(done) <= BookedIn(done)
    ensures forall id :: id in BookedIn(done) ==> OrderIs(t, id, Booked) && (id !in Counted(done) <==> Missed(done[id]))
  {
    forall id | id in done ensures SettledBy(r, t, id, done[id].trail) {
      SettledEarlier(r, s, t, id, done[id].trail);
    }
    forall id | id in done && id in r.orders ensures !Terminal(r.orders[id].status) {
      SettledOnce(r, t, id, done[id].trail);
    }
    BatchResult(r, t, done);
  }

  lemma CountedWithin(batch: seq<Uuid>, done: map<Uuid, Settlement>)
    requires forall id :: id in done ==> id in batch
    ensures |Counted(done)| <= |batch|
  {
    assert Counted(done) <= Members(batch);
    MembersAtMost(batch);
    SubsetSize(Counted(done), Members(batch));
  }

  lemma {:induction false} MembersAtMost(ids: seq<Uuid>)
    ensures |Members(ids)| <= |ids|
  {
    if ids != [] {
      MembersAtMost(ids[..|ids| - 1]);
      assert Members(ids) == Members(ids[..|ids| - 1]) + {ids[|ids| - 1]};
    }
  }

  lemma SubsetSize(a: set<Uuid>, b: set<Uuid>)
    requires a <= b
    ensures |a| <= |b|
  {
    assert b == a + (b - a);
  }

  /** The first `i` claimed rows have been materialised, from `start` to `w`. */
  ghost predicate Partway(start: World, w: World, claimed: seq<Uuid>, batch: seq<(Uuid, Uuid)>, now: Instant, i: nat) {
    && i <= |claimed| && MaterialiseAll(start, batch, now) == Some(w)
    && BatchOf(start, claimed, batch, now, i) && OrdersOf(start, w, batch) && RestOf(start, w, claimed, i)
  }

  predicate BatchOf(start: World, claimed: seq<Uuid>, batch: seq<(Uuid, Uuid)>, now: Instant, i: nat)
    requires i <= |claimed|
  {
    |batch| == i && (forall j :: 0 <= j < i ==> batch[j].0 == claimed[j]) && ProperBatch(start, batch, now)
  }

  predicate OrdersOf(start: World, w: World, batch: seq<(Uuid, Uuid)>) {
    (forall j :: 0 <= j < |batch| ==> batch[j].1 in w.bank.orders) && start.bank.orders.Keys <= w.bank.orders.Keys
  }

  /** The rows that are still to come are as they were. */
  predicate RestOf(start: World, w: World, claimed: seq<Uuid>, i: nat)
    requires i <= |claimed|
  {
    && w.templates == start.templates
    && forall id :: id in start.book.rows && id !in claimed[..i] ==> id in w.book.rows && w.book.rows[id] == start.book.rows[id]
  }

  lemma ClaimedRow(start: World, w: World, claimed: seq<Uuid>, batch: seq<(Uuid, Uuid)>, limit: nat, now: Instant,
                   locked: set<Uuid>, i: nat)
    requires TemplatesOk(start) && Partway(start, w, claimed, batch, now, i) && i < |claimed|
    requires S.IsClaim(start.book, limit, now, locked, claimed)
    ensures claimed[i] !in claimed[..i] && claimed[i] in w.book.rows && claimed[i] in w.templates
    ensures w.book.rows[claimed[i]] == start.book.rows[claimed[i]] && S.IsDue(w.book.rows[claimed[i]], now)
  {
    hide KeyText;
    assert forall j :: 0 <= j < i ==> S.Earlier(start.book, claimed[j], claimed[i]);
  }

  lemma PartwayStep(start: World, w: World, claimed: seq<Uuid>, batch: seq<(Uuid, Uuid)>, limit: nat, now: Instant,
                    locked: set<Uuid>, i: nat, order: Uuid, t: World)
    requires TemplatesOk(start) && Partway(start, w, claimed, batch, now, i) && i < |claimed|
    requires S.IsClaim(start.book, limit, now, locked, claimed)
    requires order !in w.bank.orders && MaterialiseOne(w, claimed[i], order, now) == Some(t)
    ensures Partway(start, t, claimed, batch + [(claimed[i], order)], now, i + 1)
  {
    hide KeyText;
    ClaimedRow(start, w, claimed, batch, limit, now, locked, i);
    MaterialiseAllThen(start, batch, (claimed[i], order), now);
    BatchGrows(start, w, claimed, batch, now, i, order);
    RestShrinks(start, w, claimed, now, i, order, t);
  }

  /** The rest shrinks by the row that is materialised, and the orders grow by its order. */
  lemma RestShrinks(start: World, w: World, claimed: seq<Uuid>, now: Instant, i: nat, order: Uuid, t: World)
    requires i < |claimed| && RestOf(start, w, claimed, i) && MaterialiseOne(w, claimed[i], order, now) == Some(t)
    ensures RestOf(start, t, claimed, i + 1) && t.bank.orders.Keys == w.bank.orders.Keys + {order}
  {
    hide KeyText;
    assert claimed[..i + 1] == claimed[..i] + [claimed[i]];
  }

  lemma BatchGrows(start: World, w: World, claimed: seq<Uuid>, batch: seq<(Uuid, Uuid)>, now: Instant, i: nat, order: Uuid)
    requires i < |claimed| && BatchOf(start, claimed, batch, now, i) && OrdersOf(start, w, batch) && claimed[i] !in claimed[..i]
    requires claimed[i] in start.book.rows && S.IsDue(start.book.rows[claimed[i]], now) && order !in w.bank.orders
    ensures BatchOf(start, claimed, batch + [(claimed[i], order)], now, i + 1)
  {
    var next := batch + [(claimed[i], order)];
    forall j | 0 <= j < i ensures next[j] == batch[j] && next[j].0 != claimed[i] && next[j].1 != order {
      assert claimed[j] in claimed[..i];
    }
  }

  lemma BatchEnds(start: World, w: World, claimed: seq<Uuid>, batch: seq<(Uuid, Uuid)>, now: Instant)
    requires Inv(start) && MaterialiseAll(start, batch, now) == Some(w) && BatchOf(start, claimed, batch, now, |claimed|)
    ensures Inv(w) && Reaches(start, w)
    ensures forall id :: id in claimed ==> KeyIsFree(start, id)
  {
    hide KeyText;
    BatchReaches(start, w, batch, now);
    MaterialisesIffKeysFree(start, batch, now);
    ClaimedKeysFree(start, claimed, batch, now);
  }

  lemma BatchReaches(start: World, w: World, batch: seq<(Uuid, Uuid)>, now: Instant)
    requires Inv(start) && MaterialiseAll(start, batch, now) == Some(w)
    ensures Inv(w) && Reaches(start, w)
  {
    hide KeyText;
    ReachesSelf(start);
    ReachesStep(start, start, Materialise(batch, now));
    assert Apply(start, Materialise(batch, now)) == w;
  }

  lemma ClaimedKeysFree(start: World, claimed: seq<Uuid>, batch: seq<(Uuid, Uuid)>, now: Instant)
    requires BatchOf(start, claimed, batch, now, |claimed|) && AllKeysFree(start, batch)
    ensures forall id :: id in claimed ==> KeyIsFree(start, id)
  {
    forall id | id in claimed ensures KeyIsFree(start, id) {
      var j :| 0 <= j < |claimed| && claimed[j] == id;
      assert batch[j].0 == id;
    }
  }

  /** CreatePaymentOrder and AdvanceStandingOrder for one claimed row. */
  method InsertAndAdvance(w: World, id: Uuid, order: Uuid, now: Instant) returns (r: Option<World>)
    requires id in w.book.rows && id in w.templates && S.IsDue(w.book.rows[id], now)
    ensures r == MaterialiseOne(w, id, order, now)
    ensures r.Some? ==>
              && order !in w.bank.orders && order in r.value.bank.orders
              && r.value.bank == w.bank.(orders := w.bank.orders[order := r.value.bank.orders[order]])
              && var standing, t, o := w.book.rows[id], w.templates[id], r.value.bank.orders[order];
                 && o.owner == standing.owner && o.source == t.source && o.beneficiary == t.beneficiary
                 && o.name == t.name && o.iban == t.iban && o.bic == t.bic && o.amount == t.amount
                 && o.purpose == t.purpose && o.reference == t.reference
                 && o.kind == (if t.beneficiary.Some? then B.Internal else if t.instant then B.SepaInstant else B.Sepa)
                 && o.vop == (if t.beneficiary.Some? then B.Match else B.Other)
                 && o.schedule == B.Standing && o.status == Scheduled
                 && o.requestedAt == standing.next.day * 86_400_000_000_000 + standing.next.nanos
                 && o.key == KeyText(S.Key(id, standing.next.day, standing.next.nanos / 1_000_000_000))
  {
    hide KeyText;
    var standing, t := w.book.rows[id], w.templates[id];
    var kind, vop := B.Sepa, B.Other;
    if t.beneficiary.Some? {
      kind, vop := B.Internal, B.Match;
    } else if t.instant {
      kind := B.SepaInstant;
    }
    var o := B.PaymentOrder(standing.owner, t.source, t.beneficiary, t.name, t.iban, t.bic, t.amount, kind, B.Standing,
                            t.purpose, t.reference, NextKey(id, standing), Nanos(standing.next), vop, false, Scheduled,
                            None, None, 0, None);
    if !B.Insertable(w.bank, order, o) {
      return None;
    }
    var next := Next(standing.next, standing.frequency);
    var status := S.Active;
    if S.ShouldComplete(standing, next) {
      status := S.Completed;
    }
    var row := standing.(occurrences := standing.occurrences + 1, next := next, status := status);
    var payment := S.Payment(id, standing.next, S.KeyOf(id, standing.next));
    r := Some(World(w.bank.(orders := w.bank.orders[order := o]),
                    S.Book(w.book.rows[id := row], w.book.payments + [payment]), w.templates, w.links + [order]));
  }
}
