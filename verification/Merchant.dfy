/** Merchant payment intents on top of the payment core (merchant/service.go, database/merchant.go). */
module Merchant {
  import opened Wrappers
  import opened Posting
  import opened Lifecycle
  import Decimal
  import B = Bank
  import BI = BankInvariant
  import BankPreservation
  import opened BankRuns
  import opened Creation
  import opened PaymentSystem

  datatype IntentStatus = AwaitingCustomer | InProcessing | IntentBooked | IntentFailed | IntentExpired

  datatype MerchantIntent = MerchantIntent(
    merchant: string, name: string, iban: string, reference: string, amount: int,
    status: IntentStatus, order: Option<Uuid>, expiresAt: int)

  /** How far an approval has come. */
  datatype Phase =
    | Checked(source: Uuid)
    | Paid(order: Uuid)
    | Linked(order: Uuid)
    | Settled(order: Uuid, result: IntentStatus)
    | Finished

  datatype Approval = Approval(intent: Uuid, customer: Uuid, phase: Phase)

  datatype World = World(bank: B.State, intents: map<Uuid, MerchantIntent>, approvals: map<Uuid, Approval>)

  /** The payment that an approval asks for: only the customer's account comes from the request. */
  function RequestFor(id: Uuid, intent: MerchantIntent, customer: Uuid, source: Uuid): Input {
    Input(customer, source, intent.name, intent.iban, "", Some(intent.amount), Standard, WantImmediate,
          intent.reference, "", 0, "merchant:" + Decimal.Digits(id),
          true, true, true)
  }

  /** The payment is for the intent's amount, to the intent's beneficiary, under the intent's reference and at once; its key
      is the intent's own, so that payments of different intents never share a key. */
  lemma {:induction false} RequestMeans(id: Uuid, intent: MerchantIntent, customer: Uuid, source: Uuid, other: Uuid, second: MerchantIntent,
                                        payer: Uuid, account: Uuid)
    ensures var r := RequestFor(id, intent, customer, source);
      && r.owner == customer && r.source == source
      && r.name == intent.name && r.iban == intent.iban && r.amount == Some(intent.amount) && r.purpose == intent.reference
      && r.bic == "" && r.reference == "" && r.schedule == WantImmediate && r.transfer == Standard
      && r.key == "merchant:" + Decimal.Digits(id)
      && (r.key == RequestFor(other, second, payer, account).key ==> id == other)
  {
    var a, b := "merchant:" + Decimal.Digits(id), "merchant:" + Decimal.Digits(other);
    assert a[9..] == Decimal.Digits(id) && b[9..] == Decimal.Digits(other);
    if a == b {
      Decimal.DigitsInjective(id, other);
    }
  }

  /** The order carries the intent's amount, beneficiary and reference and is to be executed at once. */
  predicate Carries(o: B.PaymentOrder, intent: MerchantIntent) {
    && o.amount == intent.amount && o.iban == intent.iban && o.name == intent.name
    && o.purpose.GetOr("") == intent.reference && o.schedule.Immediate?
  }

  // ----- steps -----

  /** What the approval learns from a confirmation that took effect: the order as it is now; the error of an earlier,
      aborted attempt, which hides a booking; or an error without an order, when the answer to the commit is lost. */
  datatype Reply = Told | StaleError | NoAnswer

  /** What the approval then has to record, if anything. */
  function ResultOf(status: Status, reply: Reply): Option<IntentStatus> {
    if reply.NoAnswer? then None
    else if !status.Booked? then Some(IntentFailed)
    else if reply.StaleError? then None
    else Some(IntentBooked)
  }

  datatype Step =
    | BankStep(step: B.Step)
    | CreateIntent(id: Uuid, intent: MerchantIntent)
    | Expire(id: Uuid, now: int)
    | Start(tid: Uuid, id: Uuid, customer: Uuid, source: Uuid, now: int)
    | Pay(tid: Uuid, order: Uuid)
    | Link(tid: Uuid)
    | Settle(tid: Uuid, now: int, txId: Uuid, reply: Reply)
    | Record(tid: Uuid)
    | Abandon(tid: Uuid)

  predicate InPhase(w: World, tid: Uuid) {
    tid in w.approvals && w.approvals[tid].intent in w.intents
  }

  function Move(w: World, tid: Uuid, phase: Phase): map<Uuid, Approval>
    requires tid in w.approvals
  {
    w.approvals[tid := w.approvals[tid].(phase := phase)]
  }

  predicate OrderUnlinked(w: World, order: Uuid) {
    forall i :: i in w.intents ==> w.intents[i].order != Some(order)
  }

  predicate ReferenceFree(w: World, merchant: string, reference: string) {
    forall i :: i in w.intents ==> w.intents[i].merchant != merchant || w.intents[i].reference != reference
  }

  /** The guarded UPDATE of LinkMerchantIntentPayment, under the unique constraint on the linked order. */
  predicate Linkable(w: World, id: Uuid, order: Uuid) {
    id in w.intents && w.intents[id].status.AwaitingCustomer? && w.intents[id].order.None? && OrderUnlinked(w, order)
  }

  function Apply(w: World, step: Step): World {
    match step
    case BankStep(b) => w.(bank := B.Apply(w.bank, b))
    case CreateIntent(id, intent) =>
      if id in w.intents || intent.amount <= 0 || !ReferenceFree(w, intent.merchant, intent.reference) then w
      else w.(intents := w.intents[id := intent.(status := AwaitingCustomer, order := None)])
    case Expire(id, now) =>
      if id in w.intents && w.intents[id].status.AwaitingCustomer? && w.intents[id].expiresAt <= now
      then w.(intents := w.intents[id := w.intents[id].(status := IntentExpired)]) else w
    case Start(tid, id, customer, source, now) =>
      if tid in w.approvals || id !in w.intents || !w.intents[id].status.AwaitingCustomer? || w.intents[id].expiresAt <= now then w
      else w.(approvals := w.approvals[tid := Approval(id, customer, Checked(source))])
    case Pay(tid, order) =>
      if !InPhase(w, tid) || !w.approvals[tid].phase.Checked? then w
      else
        var a := w.approvals[tid];
        if Matches(w.bank, order, RequestFor(a.intent, w.intents[a.intent], a.customer, a.phase.source))
        then w.(approvals := Move(w, tid, Paid(order))) else w
    case Link(tid) =>
      if !InPhase(w, tid) || !w.approvals[tid].phase.Paid? then w
      else
        var id, order := w.approvals[tid].intent, w.approvals[tid].phase.order;
        if !Linkable(w, id, order) then w.(approvals := Move(w, tid, Finished))
        else w.(intents := w.intents[id := w.intents[id].(status := InProcessing, order := Some(order))],
                approvals := Move(w, tid, Linked(order)))
    case Settle(tid, now, txId, reply) =>
      if !InPhase(w, tid) || !w.approvals[tid].phase.Linked? then w
      else
        var order := w.approvals[tid].phase.order;
        var after := B.Apply(w.bank, B.Confirm(w.approvals[tid].customer, order, false, now, txId));
        if order !in w.bank.orders || order !in after.orders || after.orders[order].status == w.bank.orders[order].status
        then w.(approvals := Move(w, tid, Finished))
        else
          var result := ResultOf(after.orders[order].status, reply);
          w.(bank := after, approvals := Move(w, tid, if result.None? then Finished else Settled(order, result.value)))
    case Record(tid) =>
      if !InPhase(w, tid) || !w.approvals[tid].phase.Settled? then w
      else
        var id := w.approvals[tid].intent;
        w.(intents := w.intents[id := w.intents[id].(status := w.approvals[tid].phase.result)],
           approvals := Move(w, tid, Finished))
    case Abandon(tid) =>
      if tid in w.approvals then w.(approvals := Move(w, tid, Finished)) else w
  }

  function Run(w: World, steps: seq<Step>): World
    decreases |steps|
  {
    if steps == [] then w else Run(Apply(w, steps[0]), steps[1..])
  }

  // ----- the statements, column by column -----

  /** A waiting intent expires exactly when its time has come, and nothing else changes. */
  lemma ExpireMeans(w: World, id: Uuid, now: int)
    ensures var t := Apply(w, Expire(id, now));
      if id in w.intents && w.intents[id].status == AwaitingCustomer && w.intents[id].expiresAt <= now
      then t == World(w.bank, w.intents[id := w.intents[id].(status := IntentExpired)], w.approvals)
      else t == w
  {
  }

  /** An approval starts only while the intent waits for a customer and has not expired. */
  lemma StartMeans(w: World, tid: Uuid, id: Uuid, customer: Uuid, source: Uuid, now: int)
    ensures var t := Apply(w, Start(tid, id, customer, source, now));
      if tid !in w.approvals && id in w.intents && w.intents[id].status == AwaitingCustomer && now < w.intents[id].expiresAt
      then t == World(w.bank, w.intents, w.approvals[tid := Approval(id, customer, Checked(source))])
      else t == w
  {
  }

  /** The order that an approval goes on with belongs to its customer and debits the chosen account, for the intent's amount,
      to its beneficiary, under its reference and key; it moves no money. */
  lemma PayMeans(w: World, tid: Uuid, order: Uuid)
    requires tid in w.approvals && w.approvals[tid].phase.Checked? && Apply(w, Pay(tid, order)) != w
    ensures var a, t := w.approvals[tid], Apply(w, Pay(tid, order));
      && t == World(w.bank, w.intents, w.approvals[tid := Approval(a.intent, a.customer, Paid(order))])
      && a.intent in w.intents && order in w.bank.orders
      && var o, intent := w.bank.orders[order], w.intents[a.intent];
         && o.owner == a.customer && o.source == a.phase.source && o.schedule == B.Immediate
         && o.amount == intent.amount && o.iban == intent.iban && o.name == intent.name
         && (o.purpose == Some(intent.reference) || (o.purpose == None && intent.reference == ""))
         && o.key == "merchant:" + Decimal.Digits(a.intent)
  {
  }

  /** The link is made exactly when the intent waits, has no order, and no intent has this order. */
  lemma LinkMeans(w: World, tid: Uuid)
    requires tid in w.approvals && w.approvals[tid].phase.Paid? && w.approvals[tid].intent in w.intents
    ensures var a, t := w.approvals[tid], Apply(w, Link(tid));
      var id, order := a.intent, a.phase.order;
      if w.intents[id].status == AwaitingCustomer && w.intents[id].order == None
         && (forall i :: i in w.intents ==> w.intents[i].order != Some(order))
      then t == World(w.bank, w.intents[id := w.intents[id].(status := InProcessing, order := Some(order))],
                      w.approvals[tid := Approval(id, a.customer, Linked(order))])
      else t == World(w.bank, w.intents, w.approvals[tid := Approval(id, a.customer, Finished)])
  {
  }

  /** What is recorded: FAILED for a failed order, BOOKED for a booked one that was reported without an error, and nothing
      otherwise. */
  lemma ResultMeans(status: Status, reply: Reply)
    ensures ResultOf(status, reply) == Some(IntentBooked) <==> status == Booked && reply == Told
    ensures ResultOf(status, reply) == Some(IntentFailed) <==> status != Booked && reply != NoAnswer
    ensures ResultOf(status, reply) == None || ResultOf(status, reply) in {Some(IntentBooked), Some(IntentFailed)}
  {
  }

  // ----- the invariant -----

  /** The link, the order behind it, and what the status says about it. */
  ghost predicate IntentOk(w: World, id: Uuid)
    requires id in w.intents
  {
    var intent := w.intents[id];
    && (intent.order.None? <==> intent.status.AwaitingCustomer? || intent.status.IntentExpired?)
    && (intent.order.Some? ==>
          && intent.order.value in w.bank.orders && Carries(w.bank.orders[intent.order.value], intent)
          && (intent.status.IntentBooked? ==> w.bank.orders[intent.order.value].status.Booked?)
          && (intent.status.IntentFailed? ==> w.bank.orders[intent.order.value].status.Failed?))
  }

  /** The approval has linked the order and not yet recorded the result. */
  predicate Winner(w: World, tid: Uuid) {
    tid in w.approvals && (w.approvals[tid].phase.Linked? || w.approvals[tid].phase.Settled?)
  }

  ghost predicate ApprovalOk(w: World, tid: Uuid)
    requires tid in w.approvals
  {
    var a := w.approvals[tid];
    && a.intent in w.intents
    && (a.phase.Paid? ==> a.phase.order in w.bank.orders && Carries(w.bank.orders[a.phase.order], w.intents[a.intent]))
    && (Winner(w, tid) ==>
          && w.intents[a.intent].status.InProcessing? && w.intents[a.intent].order == Some(a.phase.order)
          && a.phase.order in w.bank.orders)
    && (a.phase.Settled? ==>
          || (a.phase.result.IntentBooked? && w.bank.orders[a.phase.order].status.Booked?)
          || (a.phase.result.IntentFailed? && w.bank.orders[a.phase.order].status.Failed?))
  }

  predicate SameIntentWinners(w: World, s: Uuid, t: Uuid) {
    Winner(w, s) && Winner(w, t) && w.approvals[s].intent == w.approvals[t].intent
  }

  ghost predicate OneWinner(w: World) {
    forall s, t :: SameIntentWinners(w, s, t) ==> s == t
  }

  predicate SameLink(w: World, i: Uuid, j: Uuid) {
    i in w.intents && j in w.intents && w.intents[i].order.Some? && w.intents[i].order == w.intents[j].order
  }

  ghost predicate OneIntentPerOrder(w: World) {
    forall i, j :: SameLink(w, i, j) ==> i == j
  }

  ghost predicate IntentsOk(w: World) {
    forall id {:trigger IntentOk(w, id)} :: id in w.intents ==> IntentOk(w, id)
  }

  ghost predicate ApprovalsOk(w: World) {
    forall tid {:trigger ApprovalOk(w, tid)} :: tid in w.approvals ==> ApprovalOk(w, tid)
  }

  ghost predicate Inv(w: World) {
    BI.Inv(w.bank) && IntentsOk(w) && ApprovalsOk(w) && OneWinner(w) && OneIntentPerOrder(w)
  }

  // ----- preservation -----

  /** Orders stay, carry what they carried, and keep a terminal status. */
  ghost predicate BankMoves(s: B.State, t: B.State) {
    forall o :: o in s.orders ==> o in t.orders && Moved(s.orders[o], t.orders[o])
  }

  lemma BankStepMoves(s: B.State, step: B.Step)
    ensures BankMoves(s, B.Apply(s, step))
  {
    forall o | o in s.orders ensures o in B.Apply(s, step).orders && Moved(s.orders[o], B.Apply(s, step).orders[o]) {
      StepMovesOrder(s, step, o);
    }
  }

  lemma CarriesMoves(o: B.PaymentOrder, p: B.PaymentOrder, intent: MerchantIntent)
    requires Moved(o, p) && Carries(o, intent)
    ensures Carries(p, intent)
  {
    assert Carries(Identity(o), intent) && Identity(p) == Identity(o);
  }

  lemma BankChangeKeeps(w: World, t: World)
    requires Inv(w) && BI.Inv(t.bank) && BankMoves(w.bank, t.bank) && t.intents == w.intents && t.approvals == w.approvals
    ensures Inv(t)
  {
    forall id | id in t.intents ensures IntentOk(t, id) {
      assert IntentOk(w, id);
      if w.intents[id].order.Some? {
        CarriesMoves(w.bank.orders[w.intents[id].order.value], t.bank.orders[w.intents[id].order.value], w.intents[id]);
      }
    }
    forall tid | tid in t.approvals ensures ApprovalOk(t, tid) {
      assert ApprovalOk(w, tid);
      var a := w.approvals[tid];
      if a.phase.Paid? {
        CarriesMoves(w.bank.orders[a.phase.order], t.bank.orders[a.phase.order], w.intents[a.intent]);
      }
    }
    WinnersFrame(w, t);
    LinksFrame(w, t);
  }

  lemma WinnersFrame(w: World, t: World)
    requires OneWinner(w)
    requires forall s :: Winner(t, s) ==> Winner(w, s) && t.approvals[s].intent == w.approvals[s].intent
    ensures OneWinner(t)
  {
    forall r, s | SameIntentWinners(t, r, s) ensures r == s {
      assert SameIntentWinners(w, r, s);
    }
  }

  lemma LinksFrame(w: World, t: World)
    requires OneIntentPerOrder(w)
    requires forall i :: i in t.intents && t.intents[i].order.Some? ==> i in w.intents && t.intents[i].order == w.intents[i].order
    ensures OneIntentPerOrder(t)
  {
    forall i, j | SameLink(t, i, j) ensures i == j {
      assert SameLink(w, i, j);
    }
  }

  /** Moving one approval to a phase before the link, or out of the protocol. */
  lemma PhaseKeeps(w: World, tid: Uuid, a: Approval)
    requires Inv(w) && !a.phase.Linked? && !a.phase.Settled? && a.intent in w.intents
    requires a.phase.Paid? ==> a.phase.order in w.bank.orders && Carries(w.bank.orders[a.phase.order], w.intents[a.intent])
    ensures Inv(w.(approvals := w.approvals[tid := a]))
  {
    var t := w.(approvals := w.approvals[tid := a]);
    forall id | id in t.intents ensures IntentOk(t, id) {
      assert IntentOk(w, id);
    }
    forall other | other in t.approvals ensures ApprovalOk(t, other) {
      assert other != tid ==> ApprovalOk(w, other);
    }
    WinnersFrame(w, t);
    LinksFrame(w, t);
  }

  lemma CreateIntentKeeps(w: World, id: Uuid, intent: MerchantIntent)
    requires Inv(w) && id !in w.intents && intent.status.AwaitingCustomer? && intent.order.None?
    ensures Inv(w.(intents := w.intents[id := intent]))
  {
    var t := w.(intents := w.intents[id := intent]);
    forall other | other in t.intents ensures IntentOk(t, other) {
      assert other != id ==> IntentOk(w, other);
    }
    forall tid | tid in t.approvals ensures ApprovalOk(t, tid) {
      assert ApprovalOk(w, tid);
    }
    WinnersFrame(w, t);
    LinksFrame(w, t);
  }

  lemma ExpireKeeps(w: World, id: Uuid)
    requires Inv(w) && id in w.intents && w.intents[id].status.AwaitingCustomer?
    ensures Inv(w.(intents := w.intents[id := w.intents[id].(status := IntentExpired)]))
  {
    var t := w.(intents := w.intents[id := w.intents[id].(status := IntentExpired)]);
    forall other | other in t.intents ensures IntentOk(t, other) {
      assert IntentOk(w, other);
    }
    forall tid | tid in t.approvals ensures ApprovalOk(t, tid) {
      assert ApprovalOk(w, tid);
    }
    WinnersFrame(w, t);
    LinksFrame(w, t);
  }

  /** The link: nobody had linked the intent before, so the approval is its only winner. */
  lemma LinkKeeps(w: World, tid: Uuid)
    requires Inv(w) && InPhase(w, tid) && w.approvals[tid].phase.Paid?
    requires Linkable(w, w.approvals[tid].intent, w.approvals[tid].phase.order)
    ensures Inv(Apply(w, Link(tid)))
  {
    var t, id, order := Apply(w, Link(tid)), w.approvals[tid].intent, w.approvals[tid].phase.order;
    assert ApprovalOk(w, tid);
    forall other | other in t.intents ensures IntentOk(t, other) {
      assert IntentOk(w, other);
    }
    forall other | other in t.approvals ensures ApprovalOk(t, other) {
      assert ApprovalOk(w, other);
    }
    forall r, s | SameIntentWinners(t, r, s) ensures r == s {
      assert (r in w.approvals ==> ApprovalOk(w, r)) && (s in w.approvals ==> ApprovalOk(w, s));
      assert r != tid && s != tid ==> SameIntentWinners(w, r, s);
    }
    forall i, j | SameLink(t, i, j) ensures i == j {
      assert i != id && j != id ==> SameLink(w, i, j);
    }
  }

  /** A confirmation that changes the order's status books it or fails it. */
  lemma ConfirmBooksOrFails(s: B.State, customer: Uuid, order: Uuid, now: int, txId: Uuid)
    requires BI.Inv(s) && order in s.orders && s.orders[order].schedule.Immediate?
    ensures var t := B.Apply(s, B.Confirm(customer, order, false, now, txId));
      && order in t.orders
      && (t.orders[order].status != s.orders[order].status ==> t.orders[order].status.Booked? || t.orders[order].status.Failed?)
  {
    if B.ConfirmReady(s, customer, order, false) {
      var o := s.orders[order];
      OrderFacts(s, order);
      SettleMovesOrder(s.(orders := s.orders[order := B.ConfirmRow(o, B.ConfirmTarget(o, now), !o.vop.Match?)]), order, txId);
    }
  }

  lemma SettleKeeps(w: World, tid: Uuid, now: int, txId: Uuid, reply: Reply)
    requires Inv(w) && InPhase(w, tid) && w.approvals[tid].phase.Linked?
    ensures Inv(Apply(w, Settle(tid, now, txId, reply)))
  {
    var t, a := Apply(w, Settle(tid, now, txId, reply)), w.approvals[tid];
    assert ApprovalOk(w, tid) && IntentOk(w, a.intent);
    var confirm := B.Confirm(a.customer, a.phase.order, false, now, txId);
    ConfirmBooksOrFails(w.bank, a.customer, a.phase.order, now, txId);
    var mid := w.(bank := if t.approvals[tid].phase.Finished? && t.bank == w.bank then w.bank else B.Apply(w.bank, confirm));
    BankConfirmKeeps(w, confirm);
    if t.approvals[tid].phase.Settled? {
      SettledKeeps(mid, tid, t.approvals[tid].phase.result);
    } else {
      PhaseKeeps(mid, tid, a.(phase := Finished));
    }
  }

  lemma BankConfirmKeeps(w: World, step: B.Step)
    requires Inv(w)
    ensures Inv(w.(bank := B.Apply(w.bank, step)))
  {
    BankStepMoves(w.bank, step);
    BankPreservation.StepKeeps(w.bank, step);
    BankChangeKeeps(w, w.(bank := B.Apply(w.bank, step)));
  }

  lemma SettledKeeps(w: World, tid: Uuid, result: IntentStatus)
    requires Inv(w) && tid in w.approvals && w.approvals[tid].phase.Linked? && w.approvals[tid].phase.order in w.bank.orders
    requires var o := w.bank.orders[w.approvals[tid].phase.order];
      (result.IntentBooked? && o.status.Booked?) || (result.IntentFailed? && o.status.Failed?)
    ensures Inv(w.(approvals := Move(w, tid, Settled(w.approvals[tid].phase.order, result))))
  {
    var t := w.(approvals := Move(w, tid, Settled(w.approvals[tid].phase.order, result)));
    forall id | id in t.intents ensures IntentOk(t, id) {
      assert IntentOk(w, id);
    }
    forall other | other in t.approvals ensures ApprovalOk(t, other) {
      assert ApprovalOk(w, other);
    }
    WinnersFrame(w, t);
    LinksFrame(w, t);
  }

  lemma RecordKeeps(w: World, tid: Uuid)
    requires Inv(w) && InPhase(w, tid) && w.approvals[tid].phase.Settled?
    ensures Inv(Apply(w, Record(tid)))
  {
    var t, id := Apply(w, Record(tid)), w.approvals[tid].intent;
    assert ApprovalOk(w, tid);
    forall other | other in t.intents ensures IntentOk(t, other) {
      assert IntentOk(w, other);
    }
    forall other | other in t.approvals ensures ApprovalOk(t, other) {
      assert ApprovalOk(w, other);
      assert Winner(w, other) && w.approvals[other].intent == id ==> SameIntentWinners(w, tid, other);
    }
    WinnersFrame(w, t);
    LinksFrame(w, t);
  }

  lemma StepKeeps(w: World, step: Step)
    requires Inv(w)
    ensures Inv(Apply(w, step))
  {
    match step
    case BankStep(b) =>
      BankStepMoves(w.bank, b);
      BankPreservation.StepKeeps(w.bank, b);
      BankChangeKeeps(w, Apply(w, step));
    case CreateIntent(id, intent) =>
      if Apply(w, step) != w {
        CreateIntentKeeps(w, id, intent.(status := AwaitingCustomer, order := None));
      }
    case Expire(id, now) =>
      if id in w.intents && w.intents[id].status.AwaitingCustomer? && w.intents[id].expiresAt <= now {
        ExpireKeeps(w, id);
      }
    case Start(tid, id, customer, source, now) =>
      if id in w.intents {
        PhaseKeeps(w, tid, Approval(id, customer, Checked(source)));
      }
    case Pay(tid, order) =>
      if Apply(w, step) != w {
        PhaseKeeps(w, tid, w.approvals[tid].(phase := Paid(order)));
      }
    case Link(tid) =>
      if InPhase(w, tid) && w.approvals[tid].phase.Paid? {
        if Linkable(w, w.approvals[tid].intent, w.approvals[tid].phase.order) {
          LinkKeeps(w, tid);
        } else {
          PhaseKeeps(w, tid, w.approvals[tid].(phase := Finished));
        }
      }
    case Settle(tid, now, txId, reply) =>
      if InPhase(w, tid) && w.approvals[tid].phase.Linked? {
        SettleKeeps(w, tid, now, txId, reply);
      }
    case Record(tid) =>
      if InPhase(w, tid) && w.approvals[tid].phase.Settled? {
        RecordKeeps(w, tid);
      }
    case Abandon(tid) =>
      if tid in w.approvals {
        assert ApprovalOk(w, tid);
        PhaseKeeps(w, tid, w.approvals[tid].(phase := Finished));
      }
  }

  lemma {:induction false} RunKeeps(w: World, steps: seq<Step>)
    requires Inv(w)
    ensures Inv(Run(w, steps))
    decreases |steps|
  {
    if steps != [] {
      StepKeeps(w, steps[0]);
      RunKeeps(Apply(w, steps[0]), steps[1..]);
    }
  }

  // ----- headline properties -----

  /** Under any number of concurrent approvals and expirations: an expired or waiting intent links no order, every
      other one links an order that carries its amount, beneficiary and reference and belongs to no other intent,
      and a BOOKED (FAILED) intent has a BOOKED (FAILED) order. */
  lemma {:induction false} IntentsAgreeWithOrders(settlement: Uuid, steps: seq<Step>, id: Uuid, other: Uuid)
    requires id in Run(World(B.Initial(settlement), map[], map[]), steps).intents
    ensures var w := Run(World(B.Initial(settlement), map[], map[]), steps);
      var intent := w.intents[id];
      && (intent.status.AwaitingCustomer? || intent.status.IntentExpired? <==> intent.order.None?)
      && (intent.order.Some? ==>
            && intent.order.value in w.bank.orders
            && var o := w.bank.orders[intent.order.value];
            && o.amount == intent.amount && o.iban == intent.iban && o.purpose.GetOr("") == intent.reference
            && (intent.status.IntentBooked? ==> o.status.Booked?)
            && (intent.status.IntentFailed? ==> o.status.Failed?)
            && (other in w.intents && w.intents[other].order == intent.order ==> other == id))
  {
    var start := World(B.Initial(settlement), map[], map[]);
    BankPreservation.InitialInv(settlement);
    RunKeeps(start, steps);
    var w := Run(start, steps);
    assert IntentOk(w, id);
    assert other in w.intents && w.intents[id].order.Some? && w.intents[other].order == w.intents[id].order ==> SameLink(w, id, other);
  }

  /** An expired intent stays expired and unlinked, whatever approvals are under way. */
  lemma {:induction false} ExpiredIsFinal(w: World, steps: seq<Step>, id: Uuid)
    requires Inv(w) && id in w.intents && w.intents[id].status == IntentExpired
    ensures id in Run(w, steps).intents && Run(w, steps).intents[id] == w.intents[id] && w.intents[id].order == None
    decreases |steps|
  {
    assert IntentOk(w, id);
    if steps != [] {
      StepKeeps(w, steps[0]);
      ExpiredStays(w, steps[0], id);
      ExpiredIsFinal(Apply(w, steps[0]), steps[1..], id);
    }
  }

  lemma ExpiredStays(w: World, step: Step, id: Uuid)
    requires ApprovalsOk(w) && id in w.intents && w.intents[id].status == IntentExpired
    ensures id in Apply(w, step).intents && Apply(w, step).intents[id] == w.intents[id]
  {
    if step.Record? && InPhase(w, step.tid) {
      assert ApprovalOk(w, step.tid);
    }
  }

  /** A link is never replaced. */
  lemma {:induction false} LinkIsFinal(w: World, steps: seq<Step>, id: Uuid)
    requires Inv(w) && id in w.intents && w.intents[id].order.Some?
    ensures id in Run(w, steps).intents && Run(w, steps).intents[id].order == w.intents[id].order
    decreases |steps|
  {
    if steps != [] {
      StepKeeps(w, steps[0]);
      LinkStays(w, steps[0], id);
      LinkIsFinal(Apply(w, steps[0]), steps[1..], id);
    }
  }

  lemma LinkStays(w: World, step: Step, id: Uuid)
    requires id in w.intents && w.intents[id].order.Some?
    ensures id in Apply(w, step).intents && Apply(w, step).intents[id].order == w.intents[id].order
  {
  }

  /** No approval of this intent is between the link and the record. */
  predicate NoWinner(w: World, id: Uuid) {
    forall tid :: tid in w.approvals && Winner(w, tid) ==> w.approvals[tid].intent != id
  }

  /** An approval of this intent has the result in hand and not yet recorded it. */
  predicate Recording(w: World, tid: Uuid, id: Uuid) {
    tid in w.approvals && w.approvals[tid].intent == id && w.approvals[tid].phase.Settled?
  }

  /** In PROCESSING, although the order is BOOKED. */
  predicate Lagging(w: World, id: Uuid) {
    && id in w.intents && w.intents[id].status.InProcessing? && w.intents[id].order.Some?
    && w.intents[id].order.value in w.bank.orders && w.bank.orders[w.intents[id].order.value].status.Booked?
  }

  /** The run leaves the intent BOOKED. */
  predicate BooksIntent(w: World, steps: seq<Step>, id: Uuid) {
    id in Run(w, steps).intents && Run(w, steps).intents[id].status.IntentBooked?
  }

  predicate LagsAfter(w: World, steps: seq<Step>, id: Uuid) {
    Lagging(Run(w, steps), id)
  }

  /** When "a BOOKED order has a BOOKED intent" can still come true: exactly when some approval of the intent is about
      to record the booking. Otherwise the intent stays in PROCESSING in every later state, whoever booked the order. */
  lemma {:induction false} LaggingResolvesIff(w: World, id: Uuid)
    requires Inv(w) && Lagging(w, id)
    ensures (exists steps :: BooksIntent(w, steps, id)) <==> (exists tid :: Recording(w, tid, id))
    ensures (exists tid :: Recording(w, tid, id)) || forall steps :: LagsAfter(w, steps, id)
  {
    if exists tid :: Recording(w, tid, id) {
      var tid :| Recording(w, tid, id);
      RecordResolves(w, tid, id);
    } else {
      forall steps ensures LagsAfter(w, steps, id) && !BooksIntent(w, steps, id) {
        LaggingStays(w, steps, id);
      }
    }
  }

  lemma RecordResolves(w: World, tid: Uuid, id: Uuid)
    requires Inv(w) && Lagging(w, id) && Recording(w, tid, id)
    ensures BooksIntent(w, [Record(tid)], id)
  {
    assert ApprovalOk(w, tid);
    assert Run(w, [Record(tid)]) == Run(Apply(w, Record(tid)), []);
  }

  lemma {:induction false} LaggingStays(w: World, steps: seq<Step>, id: Uuid)
    requires Inv(w) && Lagging(w, id) && forall tid :: !Recording(w, tid, id)
    ensures Lagging(Run(w, steps), id)
    decreases |steps|
  {
    if steps != [] {
      StepKeeps(w, steps[0]);
      LaggingStep(w, steps[0], id);
      LaggingStays(Apply(w, steps[0]), steps[1..], id);
    }
  }

  lemma LaggingStep(w: World, step: Step, id: Uuid)
    requires Inv(w) && Lagging(w, id) && forall tid :: !Recording(w, tid, id)
    ensures Lagging(Apply(w, step), id) && forall tid :: !Recording(Apply(w, step), tid, id)
  {
    var order := w.intents[id].order.value;
    BookedStep(w, step, order);
    LaggingIntent(w, step, id);
    forall tid ensures !Recording(Apply(w, step), tid, id) {
      NobodyRecords(w, step, tid, id);
    }
  }

  lemma LaggingIntent(w: World, step: Step, id: Uuid)
    requires id in w.intents && w.intents[id].status.InProcessing? && forall tid :: !Recording(w, tid, id)
    requires w.intents[id].order.Some?
    ensures id in Apply(w, step).intents && Apply(w, step).intents[id] == w.intents[id]
  {
    assert step.Record? ==> !Recording(w, step.tid, id);
  }

  lemma NobodyRecords(w: World, step: Step, tid: Uuid, id: Uuid)
    requires Inv(w) && Lagging(w, id) && !Recording(w, tid, id)
    ensures !Recording(Apply(w, step), tid, id)
  {
    if tid in w.approvals && w.approvals[tid].phase.Linked? {
      assert ApprovalOk(w, tid);
    }
  }

  lemma BookedStep(w: World, step: Step, order: Uuid)
    requires order in w.bank.orders && w.bank.orders[order].status.Booked?
    ensures order in Apply(w, step).bank.orders && Apply(w, step).bank.orders[order].status.Booked?
  {
    match step
    case BankStep(b) =>
      StepMovesOrder(w.bank, b, order);
    case Settle(tid, now, txId, _) =>
      if tid in w.approvals && w.approvals[tid].phase.Linked? {
        StepMovesOrder(w.bank, B.Confirm(w.approvals[tid].customer, w.approvals[tid].phase.order, false, now, txId), order);
      }
    case _ =>
  }

  // ----- every intent in PROCESSING -----

  predicate Pending(w: World, id: Uuid) {
    id in w.intents && w.intents[id].status.InProcessing?
  }

  predicate PendingAfter(w: World, steps: seq<Step>, id: Uuid) {
    Pending(Run(w, steps), id)
  }

  /** An approval of this intent has linked its order, which is still waiting and may be confirmed without an override. */
  predicate Confirming(w: World, tid: Uuid, id: Uuid) {
    && tid in w.approvals && w.approvals[tid].intent == id && w.approvals[tid].phase.Linked?
    && B.ConfirmReady(w.bank, w.approvals[tid].customer, w.approvals[tid].phase.order, false)
  }

  /** The approval will complete the intent if it goes on. */
  predicate Completing(w: World, tid: Uuid, id: Uuid) {
    Recording(w, tid, id) || Confirming(w, tid, id)
  }

  /** Whatever its order's status, an intent in PROCESSING can leave it exactly when some approval of it has a result to
      record, or has yet to confirm its order and will not be refused. Otherwise it stays so in every later state. */
  lemma {:induction false} PendingResolvesIff(w: World, id: Uuid)
    requires Inv(w) && Pending(w, id)
    ensures (exists steps :: !PendingAfter(w, steps, id)) <==> (exists tid :: Completing(w, tid, id))
  {
    if tid :| Completing(w, tid, id) {
      if Recording(w, tid, id) {
        RecordEnds(w, tid, id);
      } else {
        ConfirmingEnds(w, tid, id);
      }
    } else {
      forall steps ensures PendingAfter(w, steps, id) {
        PendingStays(w, steps, id);
      }
    }
  }

  lemma RecordEnds(w: World, tid: Uuid, id: Uuid)
    requires Inv(w) && Recording(w, tid, id)
    ensures !PendingAfter(w, [Record(tid)], id)
  {
    assert ApprovalOk(w, tid);
    assert Run(w, [Record(tid)]) == Run(Apply(w, Record(tid)), []);
  }

  lemma UnusedTx(entries: seq<B.Entry>) returns (txId: Uuid)
    ensures !B.UsesTx(entries, txId)
    ensures forall i :: 0 <= i < |entries| ==> entries[i].txId < txId
  {
    if entries == [] {
      txId := 0;
    } else {
      var last := entries[|entries| - 1];
      var above := UnusedTx(entries[..|entries| - 1]);
      txId := if above > last.txId then above else last.txId + 1;
      assert forall i :: 0 <= i < |entries| - 1 ==> entries[i] == entries[..|entries| - 1][i];
    }
  }

  lemma ConfirmationSettled(w: World, tid: Uuid, id: Uuid, txId: Uuid)
    requires Inv(w) && Confirming(w, tid, id) && !B.UsesTx(w.bank.entries, txId)
    ensures Recording(Apply(w, Settle(tid, 0, txId, Told)), tid, id)
  {
    assert ApprovalOk(w, tid) && IntentOk(w, id);
    ConfirmDecides(w.bank, w.approvals[tid].customer, w.approvals[tid].phase.order, false, 0, txId);
  }

  lemma ConfirmingEnds(w: World, tid: Uuid, id: Uuid)
    requires Inv(w) && Confirming(w, tid, id)
    ensures exists steps :: !PendingAfter(w, steps, id)
  {
    var a := w.approvals[tid];
    var txId := UnusedTx(w.bank.entries);
    var settle := Settle(tid, 0, txId, Told);
    var t := Apply(w, settle);
    ConfirmationSettled(w, tid, id, txId);
    StepKeeps(w, settle);
    RecordEnds(t, tid, id);
    assert [settle, Record(tid)][1..] == [Record(tid)];
    assert !PendingAfter(w, [settle, Record(tid)], id);
  }

  lemma {:induction false} PendingStays(w: World, steps: seq<Step>, id: Uuid)
    requires Inv(w) && Pending(w, id) && forall tid :: !Completing(w, tid, id)
    ensures PendingAfter(w, steps, id)
    decreases |steps|
  {
    if steps != [] {
      StepKeeps(w, steps[0]);
      PendingStep(w, steps[0], id);
      forall tid ensures !Completing(Apply(w, steps[0]), tid, id) {
        NobodyCompletes(w, steps[0], tid, id);
      }
      PendingStays(Apply(w, steps[0]), steps[1..], id);
    }
  }

  /** Only a record takes an intent out of PROCESSING. */
  lemma PendingStep(w: World, step: Step, id: Uuid)
    requires Pending(w, id) && forall tid :: !Completing(w, tid, id)
    ensures Pending(Apply(w, step), id)
  {
    assert step.Record? ==> !Completing(w, step.tid, id);
  }

  lemma NobodyCompletes(w: World, step: Step, tid: Uuid, id: Uuid)
    requires Inv(w) && Pending(w, id) && !Completing(w, tid, id)
    ensures !Completing(Apply(w, step), tid, id)
  {
    if Confirming(Apply(w, step), tid, id) {
      LinkedBefore(w, step, tid, id);
      assert ApprovalOk(w, tid);
      var a := w.approvals[tid];
      match step
      case BankStep(b) => ReadyBefore(w.bank, b, a.customer, a.phase.order);
      case Settle(other, now, txId, _) =>
        if other in w.approvals && w.approvals[other].phase.Linked? {
          ReadyBefore(w.bank, B.Confirm(w.approvals[other].customer, w.approvals[other].phase.order, false, now, txId),
                      a.customer, a.phase.order);
        }
      case _ =>
    }
  }

  lemma LinkedBefore(w: World, step: Step, tid: Uuid, id: Uuid)
    requires Pending(w, id) && tid in Apply(w, step).approvals
    requires Apply(w, step).approvals[tid].intent == id && Apply(w, step).approvals[tid].phase.Linked?
    ensures tid in w.approvals && w.approvals[tid] == Apply(w, step).approvals[tid]
  {
  }

  /** No order becomes ready to be confirmed. */
  lemma ReadyBefore(s: B.State, step: B.Step, owner: Uuid, order: Uuid)
    requires order in s.orders && B.ConfirmReady(B.Apply(s, step), owner, order, false)
    ensures B.ConfirmReady(s, owner, order, false)
  {
    StepMovesOrder(s, step, order);
    var o, p := s.orders[order], B.Apply(s, step).orders[order];
    assert Identity(o).owner == o.owner && Identity(p).owner == p.owner && Identity(o).vop == o.vop && Identity(p).vop == p.vop;
  }

  // ----- how intents come to lag -----

  /** One way into that state: an approval that stops between the booking and the record. */
  lemma {:induction false} CrashLeavesProcessing(w: World, tid: Uuid, steps: seq<Step>)
    requires Inv(w) && InPhase(w, tid) && w.approvals[tid].phase.Settled? && w.approvals[tid].phase.result.IntentBooked?
    ensures Lagging(Run(Apply(w, Abandon(tid)), steps), w.approvals[tid].intent)
  {
    var id, crashed := w.approvals[tid].intent, Apply(w, Abandon(tid));
    assert ApprovalOk(w, tid);
    StepKeeps(w, Abandon(tid));
    forall other ensures !Recording(crashed, other, id) {
      assert Recording(crashed, other, id) ==> SameIntentWinners(w, tid, other);
    }
    LaggingStays(crashed, steps, id);
  }

  /** Another way, without a crash: the order was booked before the approval linked it, for example because the
      customer confirmed it elsewhere. The confirmation of the approval is then refused, and nothing is recorded. */
  lemma {:induction false} BookedBeforeLinkLags(w: World, tid: Uuid, now: int, txId: Uuid, reply: Reply, steps: seq<Step>)
    requires Inv(w) && InPhase(w, tid) && w.approvals[tid].phase.Paid?
    requires Linkable(w, w.approvals[tid].intent, w.approvals[tid].phase.order)
    requires w.approvals[tid].phase.order in w.bank.orders && w.bank.orders[w.approvals[tid].phase.order].status.Booked?
    ensures var linked := Apply(w, Link(tid));
      var ended := Apply(linked, Settle(tid, now, txId, reply));
      && tid in ended.approvals && ended.approvals[tid].phase.Finished?
      && Lagging(linked, w.approvals[tid].intent) && Lagging(Run(ended, steps), w.approvals[tid].intent)
  {
    var linked, id := Apply(w, Link(tid)), w.approvals[tid].intent;
    LinkedLags(w, tid);
    StepKeeps(w, Link(tid));
    LaggingStep(linked, Settle(tid, now, txId, reply), id);
    StepKeeps(linked, Settle(tid, now, txId, reply));
    RefusedEnds(linked, tid, now, txId, reply);
    LaggingStays(Apply(linked, Settle(tid, now, txId, reply)), steps, id);
  }

  lemma LinkedLags(w: World, tid: Uuid)
    requires Inv(w) && InPhase(w, tid) && w.approvals[tid].phase.Paid?
    requires Linkable(w, w.approvals[tid].intent, w.approvals[tid].phase.order)
    requires w.approvals[tid].phase.order in w.bank.orders && w.bank.orders[w.approvals[tid].phase.order].status.Booked?
    ensures var t, id := Apply(w, Link(tid)), w.approvals[tid].intent;
      && Lagging(t, id) && (forall other :: !Recording(t, other, id))
      && tid in t.approvals && t.approvals[tid] == w.approvals[tid].(phase := Linked(w.approvals[tid].phase.order))
  {
    var t, id := Apply(w, Link(tid)), w.approvals[tid].intent;
    assert ApprovalOk(w, tid) && IntentOk(w, id);
    forall other ensures !Recording(t, other, id) {
      assert other in w.approvals ==> ApprovalOk(w, other);
    }
  }

  /** The confirmation of an order that is not waiting any more ends the approval. */
  lemma RefusedEnds(w: World, tid: Uuid, now: int, txId: Uuid, reply: Reply)
    requires InPhase(w, tid) && w.approvals[tid].phase.Linked? && w.approvals[tid].phase.order in w.bank.orders
    requires !w.bank.orders[w.approvals[tid].phase.order].status.AwaitingConfirmation?
    ensures var t := Apply(w, Settle(tid, now, txId, reply));
      tid in t.approvals && t.approvals[tid].phase.Finished?
  {
  }

  /** A third way: the booking succeeds, but the approval is told of the error of an earlier attempt, or gets no answer. */
  lemma {:induction false} StaleErrorLags(w: World, tid: Uuid, now: int, txId: Uuid, reply: Reply, steps: seq<Step>)
    requires !reply.Told? && Inv(w) && InPhase(w, tid) && w.approvals[tid].phase.Linked?
    requires var confirmed := B.Apply(w.bank, B.Confirm(w.approvals[tid].customer, w.approvals[tid].phase.order, false, now, txId));
      && w.approvals[tid].phase.order in w.bank.orders && !w.bank.orders[w.approvals[tid].phase.order].status.Booked?
      && w.approvals[tid].phase.order in confirmed.orders && confirmed.orders[w.approvals[tid].phase.order].status.Booked?
    ensures Lagging(Run(Apply(w, Settle(tid, now, txId, reply)), steps), w.approvals[tid].intent)
  {
    var ended, id := Apply(w, Settle(tid, now, txId, reply)), w.approvals[tid].intent;
    assert ApprovalOk(w, tid);
    forall other ensures !Recording(ended, other, id) {
      assert Recording(ended, other, id) ==> SameIntentWinners(w, tid, other);
    }
    StepKeeps(w, Settle(tid, now, txId, reply));
    LaggingStays(ended, steps, id);
  }

  /** A linked intent without a winner never changes again. */
  lemma {:induction false} StuckStays(w: World, steps: seq<Step>, id: Uuid)
    requires Inv(w) && id in w.intents && w.intents[id].order.Some? && NoWinner(w, id)
    ensures id in Run(w, steps).intents && Run(w, steps).intents[id] == w.intents[id]
    decreases |steps|
  {
    if steps != [] {
      StuckStep(w, steps[0], id);
      StepKeeps(w, steps[0]);
      StuckStays(Apply(w, steps[0]), steps[1..], id);
    }
  }

  lemma StuckStep(w: World, step: Step, id: Uuid)
    requires Inv(w) && id in w.intents && w.intents[id].order.Some? && NoWinner(w, id)
    ensures var t := Apply(w, step); id in t.intents && t.intents[id] == w.intents[id] && NoWinner(t, id)
  {
    var t := Apply(w, step);
    assert IntentOk(w, id);
    forall tid | tid in t.approvals && Winner(t, tid) ensures t.approvals[tid].intent != id {
      NoNewWinner(w, step, id, tid);
    }
  }

  lemma NoNewWinner(w: World, step: Step, id: Uuid, tid: Uuid)
    requires IntentsOk(w) && id in w.intents && w.intents[id].order.Some? && NoWinner(w, id)
    requires Winner(Apply(w, step), tid)
    ensures Apply(w, step).approvals[tid].intent != id
  {
    assert IntentOk(w, id);
  }

  lemma {:induction false} OrderStaysBooked(w: World, steps: seq<Step>, order: Uuid)
    requires order in w.bank.orders && w.bank.orders[order].status.Booked?
    ensures order in Run(w, steps).bank.orders && Run(w, steps).bank.orders[order].status.Booked?
    decreases |steps|
  {
    if steps != [] {
      BookedStep(w, steps[0], order);
      OrderStaysBooked(Apply(w, steps[0]), steps[1..], order);
    }
  }

  /** One intent per merchant and reference. */
  lemma {:induction false} OneIntentPerReference(w: World, steps: seq<Step>)
    requires forall i, j :: i in w.intents && j in w.intents && i != j ==>
               ReferenceOf(w, i) != ReferenceOf(w, j)
    ensures forall i, j :: i in Run(w, steps).intents && j in Run(w, steps).intents && i != j ==>
               ReferenceOf(Run(w, steps), i) != ReferenceOf(Run(w, steps), j)
    decreases |steps|
  {
    if steps != [] {
      var t := Apply(w, steps[0]);
      forall i | i in w.intents ensures i in t.intents && ReferenceOf(t, i) == ReferenceOf(w, i) {
      }
      OneIntentPerReference(t, steps[1..]);
    }
  }

  function ReferenceOf(w: World, id: Uuid): (string, string) {
    if id in w.intents then (w.intents[id].merchant, w.intents[id].reference) else ("", "")
  }
}
