/** The merchant service as it runs: guarded UPDATEs on intents, and the Approve call with other requests in between. */
module MerchantService {
  import opened Wrappers
  import opened Posting
  import Decimal
  import B = Bank
  import BI = BankInvariant
  import opened Lifecycle
  import opened BankRuns
  import opened Creation
  import opened PaymentSystem
  import opened Merchant

  const TTL := 1_800_000_000_000

  datatype MerchantConfig = MerchantConfig(name: string, iban: string, active: bool)

  datatype MerchantError =
    | IntentNotFound
    | IntentExpiredError
    | IntentStateError
    | MerchantInput
    | MerchantConflict
    | PaymentError
    | StoreError

  // ----- runs -----

  ghost predicate Reaches(w: World, t: World) {
    exists steps :: t == Run(w, steps)
  }

  lemma {:induction false} RunJoins(w: World, first: seq<Step>, second: seq<Step>)
    ensures Run(Run(w, first), second) == Run(w, first + second)
    decreases |first|
  {
    if first == [] {
      assert first + second == second;
    } else {
      RunJoins(Apply(w, first[0]), first[1..], second);
      assert (first + second)[0] == first[0] && (first + second)[1..] == first[1..] + second;
    }
  }

  lemma ReachesRun(w: World, steps: seq<Step>)
    requires Inv(w)
    ensures Reaches(w, Run(w, steps)) && Inv(Run(w, steps))
  {
    RunKeeps(w, steps);
  }

  lemma ReachesSelf(w: World)
    ensures Reaches(w, w)
  {
    assert w == Run(w, []);
  }

  lemma ReachesStep(w: World, t: World, step: Step)
    requires Reaches(w, t)
    ensures Reaches(w, Apply(t, step))
  {
    var steps :| t == Run(w, steps);
    RunJoins(w, steps, [step]);
    assert Run(t, [step]) == Run(Apply(t, step), []);
  }

  lemma ReachesJoin(w: World, t: World, u: World)
    requires Reaches(w, t) && Reaches(t, u)
    ensures Reaches(w, u)
  {
    var first :| t == Run(w, first);
    var second :| u == Run(t, second);
    RunJoins(w, first, second);
  }

  /** Whatever the payment core can do, the merchant world can do. */
  lemma {:induction false} BankRunLifts(w: World, steps: seq<B.Step>)
    ensures Reaches(w, w.(bank := B.Run(w.bank, steps)))
    decreases |steps|
  {
    if steps == [] {
      ReachesSelf(w);
    } else {
      var next := Apply(w, BankStep(steps[0]));
      BankRunLifts(next, steps[1..]);
      ReachesSelf(w);
      ReachesStep(w, w, BankStep(steps[0]));
      ReachesJoin(w, next, w.(bank := B.Run(w.bank, steps)));
    }
  }

  lemma BankReachLifts(w: World, s: B.State)
    requires B.Reachable(w.bank, s)
    ensures Reaches(w, w.(bank := s))
  {
    var steps :| s == B.Run(w.bank, steps);
    BankRunLifts(w, steps);
  }

  lemma ReachesKeeps(w: World, t: World)
    requires Reaches(w, t) && Inv(w)
    ensures Inv(t)
  {
    var steps :| t == Run(w, steps);
    RunKeeps(w, steps);
  }

  /** What is fixed when an intent is created. */
  function Terms(intent: MerchantIntent): MerchantIntent {
    intent.(status := AwaitingCustomer, order := None)
  }

  lemma {:induction false} TermsStay(w: World, steps: seq<Step>, id: Uuid)
    requires id in w.intents
    ensures id in Run(w, steps).intents && Terms(Run(w, steps).intents[id]) == Terms(w.intents[id])
    decreases |steps|
  {
    if steps != [] {
      TermsStay(Apply(w, steps[0]), steps[1..], id);
    }
  }

  lemma TermsReach(w: World, t: World, id: Uuid)
    requires Reaches(w, t) && id in w.intents
    ensures id in t.intents && Terms(t.intents[id]) == Terms(w.intents[id])
  {
    var steps :| t == Run(w, steps);
    TermsStay(w, steps, id);
  }

  /** The request that the step advances. */
  predicate Concerns(step: Step, tid: Uuid) {
    match step
    case Start(t, _, _, _, _) => t == tid
    case Pay(t, _) => t == tid
    case Link(t) => t == tid
    case Settle(t, _, _, _) => t == tid
    case Record(t) => t == tid
    case Abandon(t) => t == tid
    case _ => false
  }

  predicate LeavesAlone(steps: seq<Step>, tid: Uuid) {
    forall i :: 0 <= i < |steps| ==> !Concerns(steps[i], tid)
  }

  lemma {:induction false} OthersKeepPhase(w: World, steps: seq<Step>, tid: Uuid)
    requires tid in w.approvals && LeavesAlone(steps, tid)
    ensures tid in Run(w, steps).approvals && Run(w, steps).approvals[tid] == w.approvals[tid]
    decreases |steps|
  {
    if steps != [] {
      OthersKeepPhase(Apply(w, steps[0]), steps[1..], tid);
    }
  }

  /** An order that is linked and settled stays so; nobody else writes the status of its intent. */
  lemma {:induction false} CompletedStays(w: World, t: World, id: Uuid, order: Uuid)
    requires Inv(w) && Reaches(w, t) && NoWinner(w, id)
    requires id in w.intents && w.intents[id].order == Some(order) && w.intents[id].status.IntentBooked?
    ensures id in t.intents && t.intents[id] == w.intents[id]
    ensures order in w.bank.orders && order in t.bank.orders && w.bank.orders[order].status.Booked?
    ensures t.bank.orders[order].status.Booked?
  {
    assert IntentOk(w, id);
    var steps :| t == Run(w, steps);
    StuckStays(w, steps, id);
    OrderStaysBooked(w, steps, order);
  }

  class Checkout {
    const db: Database
    var intents: map<Uuid, MerchantIntent>
    /** How far each running request has come: its program counter. */
    var approvals: map<Uuid, Approval>

    constructor (db: Database)
      requires BI.Inv(db.state)
      ensures this.db == db && Inv(Now())
    {
      this.db, intents, approvals := db, map[], map[];
    }

    function Now(): World
      reads this, db
    {
      World(db.state, intents, approvals)
    }

    /** Other requests, and other users of the payment core, take any number of steps. */
    method Interfere(tid: Uuid)
      requires Inv(Now())
      modifies this, db
      ensures Inv(Now()) && Reaches(old(Now()), Now())
      ensures tid in old(approvals) ==> tid in approvals && approvals[tid] == old(approvals)[tid]
    {
      var others: seq<Step> := *;
      ghost var start := Now();
      if LeavesAlone(others, tid) {
        ReachesRun(start, others);
        if tid in approvals {
          OthersKeepPhase(Now(), others, tid);
        }
        var next := Run(Now(), others);
        db.state, intents, approvals := next.bank, next.intents, next.approvals;
      } else {
        ReachesSelf(Now());
      }
    }

    /** UPDATE ... SET payment_order_id, status = 'PROCESSING' of a waiting, unlinked intent; the link is UNIQUE. */
    method LinkMerchantIntentPayment(id: Uuid, order: Uuid) returns (ok: bool)
      modifies this`intents
      ensures ok ==>
                && id in old(intents) && old(intents)[id].status == AwaitingCustomer && old(intents)[id].order == None
                && (forall i :: i in old(intents) ==> old(intents)[i].order != Some(order))
                && intents == old(intents)[id := old(intents)[id].(status := InProcessing, order := Some(order))]
      ensures !ok ==> intents == old(intents)
    {
      var refused: bool := *;
      if refused || id !in intents || !intents[id].status.AwaitingCustomer? || intents[id].order.Some?
         || exists i :: i in intents && intents[i].order == Some(order) {
        return false;
      }
      intents := intents[id := intents[id].(status := InProcessing, order := Some(order))];
      ok := true;
    }

    /** UPDATE ... SET status, without a guard. */
    method SetMerchantIntentStatus(id: Uuid, status: IntentStatus) returns (ok: bool)
      modifies this`intents
      ensures intents == if ok && id in old(intents) then old(intents)[id := old(intents)[id].(status := status)] else old(intents)
    {
      ok := *;
      if ok && id in intents {
        intents := intents[id := intents[id].(status := status)];
      }
    }

    method ExpireMerchantPaymentIntent(id: Uuid, now: int) returns (ok: bool)
      modifies this`intents
      ensures intents == if ok && id in old(intents) && old(intents)[id].status == AwaitingCustomer && old(intents)[id].expiresAt <= now
                         then old(intents)[id := old(intents)[id].(status := IntentExpired)] else old(intents)
    {
      ok := *;
      if ok && id in intents && intents[id].status.AwaitingCustomer? && intents[id].expiresAt <= now {
        intents := intents[id := intents[id].(status := IntentExpired)];
      }
    }

    /** A live intent that this customer may see; reading a late one expires it. */
    method GetIntentForCustomer(customer: Uuid, id: Uuid, now: int) returns (r: Result<MerchantIntent, MerchantError>)
      requires Inv(Now())
      modifies this`intents
      ensures Inv(Now()) && Reaches(old(Now()), Now())
      ensures r.Success? ==>
                && Now() == old(Now()) && id in intents && r.value == intents[id]
                && !r.value.status.IntentExpired? && (r.value.status.AwaitingCustomer? ==> r.value.expiresAt > now)
                && (r.value.order.Some? ==>
                      r.value.order.value in db.state.orders && db.state.orders[r.value.order.value].owner == customer)
      ensures Now() == old(Now()) || Now() == Apply(old(Now()), Expire(id, now))
      ensures r == Failure(IntentExpiredError) ==>
                id in old(intents) && (old(intents)[id].status.IntentExpired? || old(intents)[id].expiresAt <= now)
    {
      ReachesSelf(Now());
      var refused: bool := *;
      if refused {
        return Failure(StoreError);
      }
      if id !in intents {
        return Failure(IntentNotFound);
      }
      var intent := intents[id];
      assert IntentOk(Now(), id);
      if intent.status.AwaitingCustomer? && intent.expiresAt <= now {
        ReachesStep(Now(), Now(), Expire(id, now));
        StepKeeps(Now(), Expire(id, now));
        var _ := ExpireMerchantPaymentIntent(id, now);
        return Failure(IntentExpiredError);
      }
      if intent.status.IntentExpired? {
        return Failure(IntentExpiredError);
      }
      if intent.order.Some? {
        var unreadable: bool := *;
        if unreadable || db.state.orders[intent.order.value].owner != customer {
          return Failure(IntentNotFound);
        }
      }
      r := Success(intent);
    }

    /**
      Insert a checkout instruction, or find the one that this reference already has; other requests act before and
      after the insert, which happens in the state `at`. A successful call returns a stored intent with the merchant's
      name and IBAN at the time of its creation and with this reference and amount. A conflict means that the
      reference has another amount.
     */
    method CreateIntent(tid: Uuid, merchants: map<string, MerchantConfig>, merchant: string, reference: string,
                        amount: Option<int>, currency: string, now: int)
      returns (r: Result<(Uuid, bool), MerchantError>, ghost at: World)
      requires Inv(Now())
      modifies this, db
      ensures Inv(Now()) && Reaches(old(Now()), at) && Reaches(at, Now())
      ensures r.Success? ==>
                && merchant in merchants && merchants[merchant].active && r.value.0 in intents
                && intents[r.value.0].merchant == merchant && intents[r.value.0].reference == reference
                && amount == Some(intents[r.value.0].amount) && (r.value.1 <==> !ReferenceFree(at, merchant, reference))
                && (!r.value.1 ==>
                      && r.value.0 !in at.intents
                      && Now() == at.(intents := at.intents[r.value.0 := intents[r.value.0]])
                      && intents[r.value.0].name == merchants[merchant].name
                      && intents[r.value.0].iban == merchants[merchant].iban
                      && intents[r.value.0].expiresAt == now + 1_800_000_000_000
                      && intents[r.value.0].status == AwaitingCustomer && intents[r.value.0].order == None)
      ensures r == Failure(MerchantConflict) ==>
                exists i :: HasReference(Now(), i, merchant, reference) && amount != Some(intents[i].amount)
      ensures !ReferenceFree(old(Now()), merchant, reference) ==>
                && (r.Success? ==> r.value.1)
                && (forall i :: HasReference(Now(), i, merchant, reference) ==>
                      i in old(intents) && Terms(intents[i]) == Terms(old(intents)[i]))
      ensures !ReferenceFree(old(Now()), merchant, reference) && Acceptable(merchants, merchant, reference, amount, currency)
              && (forall i :: HasReference(old(Now()), i, merchant, reference) ==> amount != Some(old(intents)[i].amount)) ==>
                r == Failure(MerchantConflict) || r == Failure(StoreError) || r == Failure(IntentNotFound)
      ensures r.Failure? && ReferenceFree(at, merchant, reference) ==> Now() == at
    {
      at := Now();
      ReachesSelf(Now());
      if currency != "EUR" || merchant == "" || reference == "" || |reference| > 140 || amount.None? || amount.value <= 0 {
        return Failure(MerchantInput), at;
      }
      // A failed read leaves an empty record, which is not active.
      var unread: bool := *;
      if unread || merchant !in merchants || !merchants[merchant].active {
        return Failure(IntentNotFound), at;
      }
      Interfere(tid);
      ReachesSelf(Now());
      at := Now();
      if !ReferenceFree(old(Now()), merchant, reference) {
        ReferenceStaysTaken(old(Now()), at, merchant, reference);
        StillTaken(old(Now()), at, merchant, reference);
      }
      var refused: bool := *;
      if refused {
        return Failure(StoreError), at;
      }
      if ReferenceFree(Now(), merchant, reference) {
        var id := InsertIntent(merchants[merchant], merchant, reference, amount.value, now);
        ReachesStep(at, at, Merchant.CreateIntent(id, intents[id]));
        return Success((id, false)), at;
      }
      r := ReplayIntent(tid, merchant, reference, amount);
      ReachesJoin(old(Now()), at, Now());
      if !ReferenceFree(old(Now()), merchant, reference) {
        ReferenceStaysTaken(old(Now()), Now(), merchant, reference);
      }
    }

    /** The INSERT, under a free reference. */
    method InsertIntent(config: MerchantConfig, merchant: string, reference: string, amount: int, now: int) returns (id: Uuid)
      requires Inv(Now()) && amount > 0 && ReferenceFree(Now(), merchant, reference)
      modifies this`intents
      ensures id !in old(intents) && id in intents && Inv(Now())
      ensures intents[id] == MerchantIntent(merchant, config.name, config.iban, reference, amount, AwaitingCustomer, None, now + TTL)
      ensures Now() == old(Now()).(intents := old(intents)[id := intents[id]])
      ensures Now() == Apply(old(Now()), Merchant.CreateIntent(id, intents[id]))
    {
      id := NewIntentId(intents);
      var intent := MerchantIntent(merchant, config.name, config.iban, reference, amount, AwaitingCustomer, None, now + TTL);
      StepKeeps(Now(), Merchant.CreateIntent(id, intent));
      intents := intents[id := intent];
    }

    /** After the unique violation: look the intent up, others acting in between, and compare the amounts. */
    method ReplayIntent(tid: Uuid, merchant: string, reference: string, amount: Option<int>)
      returns (r: Result<(Uuid, bool), MerchantError>)
      requires Inv(Now()) && !ReferenceFree(Now(), merchant, reference)
      modifies this, db
      ensures Inv(Now()) && Reaches(old(Now()), Now())
      ensures r.Success? ==>
                r.value.1 && HasReference(Now(), r.value.0, merchant, reference) && amount == Some(intents[r.value.0].amount)
      ensures r.Failure? ==> r.error.MerchantConflict? || r.error.StoreError?
      ensures r == Failure(MerchantConflict) ==>
                exists i :: HasReference(Now(), i, merchant, reference) && amount != Some(intents[i].amount)
    {
      ghost var taken := TakenBy(Now(), merchant, reference);
      Interfere(tid);
      TermsReach(old(Now()), Now(), taken);
      assert Terms(intents[taken]).merchant == merchant && Terms(intents[taken]).reference == reference;
      var refused: bool := *;
      if refused {
        return Failure(StoreError);
      }
      var found := set id | id in intents && intents[id].merchant == merchant && intents[id].reference == reference;
      assert taken in found;
      var id :| id in found;
      assert HasReference(Now(), id, merchant, reference);
      if amount != Some(intents[id].amount) {
        return Failure(MerchantConflict);
      }
      r := Success((id, true));
    }

    /** Enter a new request in the table of program counters. */
    method Begin(tid: Uuid, id: Uuid, customer: Uuid, source: Uuid, now: int)
      requires Inv(Now()) && tid !in approvals && id in intents
      requires intents[id].status.AwaitingCustomer? && intents[id].expiresAt > now
      modifies this`approvals
      ensures Inv(Now()) && Now() == Apply(old(Now()), Start(tid, id, customer, source, now))
      ensures tid in approvals && approvals[tid] == Approval(id, customer, Checked(source))
    {
      StepKeeps(Now(), Start(tid, id, customer, source, now));
      approvals := approvals[tid := Approval(id, customer, Checked(source))];
    }

    /** The request ends, however far it came. */
    method End(tid: Uuid)
      requires Inv(Now()) && tid in approvals
      modifies this`approvals
      ensures Inv(Now()) && Now() == Apply(old(Now()), Abandon(tid))
    {
      StepKeeps(Now(), Abandon(tid));
      approvals := approvals[tid := approvals[tid].(phase := Finished)];
    }

    /** The first half of Approve: create (or find) the payment order of the intent. */
    method PayIntent(tid: Uuid, now: int) returns (order: Option<Uuid>)
      requires Inv(Now()) && InPhase(Now(), tid) && approvals[tid].phase.Checked?
      modifies this, db
      ensures Inv(Now()) && Reaches(old(Now()), Now())
      ensures tid in approvals && approvals[tid].intent == old(approvals)[tid].intent
      ensures approvals[tid].customer == old(approvals)[tid].customer
      ensures order.Some? ==>
                approvals[tid].phase == Paid(order.value)
                && OrderedBy(db.state, order.value, approvals[tid].customer, old(approvals)[tid].phase.source, approvals[tid].intent)
    {
      var a := approvals[tid];
      var input := RequestFor(a.intent, intents[a.intent], a.customer, a.phase.source);
      Interfere(tid);
      TermsReach(old(Now()), Now(), a.intent);
      ghost var before := Now();
      ghost var inserted, read, seen, unread;
      var created;
      created, inserted, read, seen, unread := CreatePayment(db, input, now);
      BankReachLifts(before, db.state);
      ReachesJoin(old(Now()), before, Now());
      ReachesKeeps(old(Now()), Now());
      if created.Failure? {
        return None;
      }
      order := Some(created.value.id);
      assert input == RequestFor(a.intent, Terms(intents[a.intent]), a.customer, a.phase.source);
      ReachesStep(old(Now()), Now(), Pay(tid, order.value));
      MarkPaid(tid, order.value);
    }

    method MarkPaid(tid: Uuid, order: Uuid)
      requires Inv(Now()) && InPhase(Now(), tid) && approvals[tid].phase.Checked?
      requires Matches(db.state, order, RequestFor(approvals[tid].intent, intents[approvals[tid].intent],
                                                   approvals[tid].customer, approvals[tid].phase.source))
      modifies this`approvals
      ensures Inv(Now()) && Now() == Apply(old(Now()), Pay(tid, order))
      ensures tid in approvals && approvals[tid] == old(approvals)[tid].(phase := Paid(order))
      ensures OrderedBy(db.state, order, approvals[tid].customer, old(approvals)[tid].phase.source, approvals[tid].intent)
    {
      StepKeeps(Now(), Pay(tid, order));
      approvals := approvals[tid := approvals[tid].(phase := Paid(order))];
    }

    /** The link: at most one request per intent gets past it. */
    method LinkIntent(tid: Uuid) returns (ok: bool)
      requires Inv(Now()) && InPhase(Now(), tid) && approvals[tid].phase.Paid?
      modifies this
      ensures Inv(Now()) && Reaches(old(Now()), Now()) && db.state == old(db.state)
      ensures ok ==> Now() == Apply(old(Now()), Link(tid)) && tid in approvals
                     && approvals[tid] == old(approvals)[tid].(phase := Linked(old(approvals)[tid].phase.order))
      ensures !ok ==> Now() == old(Now())
    {
      ReachesSelf(Now());
      var id, order := approvals[tid].intent, approvals[tid].phase.order;
      ok := LinkMerchantIntentPayment(id, order);
      if ok {
        StepKeeps(old(Now()), Link(tid));
        ReachesStep(old(Now()), old(Now()), Link(tid));
        approvals := approvals[tid := approvals[tid].(phase := Linked(order))];
      }
    }

    /**
      The confirmation of the linked order. A result is returned when the call reports no error, or a failed order. When
      it took effect without one, the approval ends with nothing to record: the answer to the commit was lost, or a
      BOOKED order comes with the error that an earlier, aborted attempt had recorded.
     */
    method SettleIntent(tid: Uuid) returns (result: Option<IntentStatus>, ghost answered: bool, ghost trail: seq<Try>)
      requires Inv(Now()) && InPhase(Now(), tid) && approvals[tid].phase.Linked?
      modifies this, db
      ensures Inv(Now()) && Reaches(old(Now()), Now()) && intents == old(intents) && tid in approvals
      ensures result.Some? ==>
                approvals[tid] == old(approvals)[tid].(phase := Settled(old(approvals)[tid].phase.order, result.value))
      ensures result.None? && approvals != old(approvals) ==>
                && approvals[tid] == old(approvals)[tid].(phase := Finished)
                && (answered ==> OrderIs(db.state, old(approvals)[tid].phase.order, Booked) && StaleFailure(trail))
      ensures result.Some? ==> answered
      ensures result == Some(IntentBooked) ==> !StaleFailure(trail)
    {
      var a := approvals[tid];
      ghost var start := Now();
      assert ApprovalOk(start, tid) && IntentOk(start, a.intent);
      var outcome, reported;
      outcome, reported, trail := db.ExecTx(ConfirmOp(a.customer, a.phase.order, false));
      ghost var before, step := Final(trail).state, Final(trail).step;
      answered := outcome.Committed?;
      if !TookEffect(outcome) {
        BankReachLifts(start, before);
        ReachesKeeps(start, start.(bank := before));
        return None, true, trail;
      }
      assert GoodTry(ConfirmOp(a.customer, a.phase.order, false), Final(trail));
      var reply := if outcome.Unacknowledged? then NoAnswer else if reported.Some? then StaleError else Told;
      ConfirmationSettles(start, before, tid, step.now, step.txId, reply, db.state);
      result := ResultOf(db.state.orders[a.phase.order].status, reply);
      approvals := approvals[tid := a.(phase := if result.None? then Finished else Settled(a.phase.order, result.value))];
    }

    /** The record of the result in the intent. */
    method RecordIntent(tid: Uuid) returns (ok: bool)
      requires Inv(Now()) && InPhase(Now(), tid) && approvals[tid].phase.Settled?
      modifies this
      ensures Inv(Now()) && Reaches(old(Now()), Now()) && db.state == old(db.state)
      ensures Now() == if ok then Apply(old(Now()), Record(tid)) else old(Now())
    {
      ReachesSelf(Now());
      ok := SetMerchantIntentStatus(approvals[tid].intent, approvals[tid].phase.result);
      if ok {
        StepKeeps(old(Now()), Record(tid));
        ReachesStep(old(Now()), old(Now()), Record(tid));
        approvals := approvals[tid := approvals[tid].(phase := Finished)];
      }
    }

    /**
      Pay for an intent from one of the customer's accounts. When the call succeeds, the intent is BOOKED and linked
      to a BOOKED order of this customer, drawn on this account, with the intent's amount, beneficiary and reference.
     */
    method Approve(tid: Uuid, customer: Uuid, source: Uuid, id: Uuid, now: int)
      returns (r: Result<MerchantIntent, MerchantError>)
      requires Inv(Now()) && tid !in approvals
      modifies this, db
      ensures Inv(Now()) && Reaches(old(Now()), Now())
      ensures r.Success? ==>
                && id in old(intents) && id in intents && intents[id] == r.value && Terms(r.value) == Terms(old(intents)[id])
                && r.value.status.IntentBooked? && r.value.order.Some?
                && var order := r.value.order.value;
                && OrderedBy(db.state, order, customer, source, id)
                && db.state.orders[order].status.Booked? && Carries(db.state.orders[order], r.value)
      ensures id in old(intents) && !old(intents)[id].status.AwaitingCustomer? ==> r.Failure? && Now() == old(Now())
    {
      ghost var start := Now();
      var got := GetIntentForCustomer(customer, id, now);
      if got.Failure? {
        return Failure(got.error);
      }
      if !got.value.status.AwaitingCustomer? {
        return Failure(IntentStateError);
      }
      Begin(tid, id, customer, source, now);
      ReachesSelf(start);
      ReachesStep(start, start, Start(tid, id, customer, source, now));
      ghost var begun := Now();
      var later: int := *;
      var order := PayIntent(tid, later);
      ReachesJoin(start, begun, Now());
      ghost var paid := Now();
      if order.None? {
        r := Failure(PaymentError);
        ReachesStep(start, paid, Abandon(tid));
        End(tid);
      } else {
        assert ApprovalOk(paid, tid);
        r := Complete(tid);
        ReachesJoin(start, paid, Now());
        OrderedStays(paid, Now(), order.value, customer, source, id);
        TermsReach(start, Now(), id);
      }
    }

    /** The second half of Approve: link, confirm, record, read back. */
    method Complete(tid: Uuid) returns (r: Result<MerchantIntent, MerchantError>)
      requires Inv(Now()) && InPhase(Now(), tid) && approvals[tid].phase.Paid?
      modifies this, db
      ensures Inv(Now()) && Reaches(old(Now()), Now())
      ensures r.Success? ==>
                var id, order := old(approvals)[tid].intent, old(approvals)[tid].phase.order;
                && id in intents && intents[id] == r.value && r.value.status.IntentBooked? && r.value.order == Some(order)
                && order in db.state.orders && db.state.orders[order].status.Booked?
                && Carries(db.state.orders[order], r.value)
    {
      ghost var start := Now();
      Interfere(tid);
      assert ApprovalOk(Now(), tid);
      ghost var mid := Now();
      var linked := LinkIntent(tid);
      ReachesJoin(start, mid, Now());
      if !linked {
        ReachesStep(start, Now(), Abandon(tid));
        End(tid);
        return Failure(IntentNotFound);
      }
      mid := Now();
      Interfere(tid);
      ReachesJoin(start, mid, Now());
      assert ApprovalOk(Now(), tid);
      mid := Now();
      ghost var trail, answered;
      var result;
      result, answered, trail := SettleIntent(tid);
      ReachesJoin(start, mid, Now());
      if result.None? {
        ReachesStep(start, Now(), Abandon(tid));
        End(tid);
        return Failure(PaymentError);
      }
      mid := Now();
      r := Publish(tid, result.value);
      ReachesJoin(start, mid, Now());
    }

    /** Record the result of a settled order, and read the completed intent back. */
    method Publish(tid: Uuid, result: IntentStatus) returns (r: Result<MerchantIntent, MerchantError>)
      requires Inv(Now()) && InPhase(Now(), tid) && approvals[tid].phase.Settled? && approvals[tid].phase.result == result
      modifies this, db
      ensures Inv(Now()) && Reaches(old(Now()), Now())
      ensures r.Success? ==>
                var id, order := old(approvals)[tid].intent, old(approvals)[tid].phase.order;
                && id in intents && intents[id] == r.value && r.value.status.IntentBooked? && r.value.order == Some(order)
                && order in db.state.orders && db.state.orders[order].status.Booked?
                && Carries(db.state.orders[order], r.value)
    {
      ghost var start := Now();
      var a := approvals[tid];
      Interfere(tid);
      assert ApprovalOk(Now(), tid);
      ghost var mid := Now();
      var recorded := RecordIntent(tid);
      ReachesJoin(start, mid, Now());
      if !recorded || result.IntentFailed? {
        ReachesStep(start, Now(), Abandon(tid));
        End(tid);
        return Failure(if recorded then PaymentError else StoreError);
      }
      RecordLeavesNoWinner(mid, tid);
      mid := Now();
      r := ReadBack(tid, a.customer, a.intent, a.phase.order);
      ReachesJoin(start, mid, Now());
    }

    /** Read the completed intent; others may act before. */
    method ReadBack(tid: Uuid, customer: Uuid, id: Uuid, order: Uuid) returns (r: Result<MerchantIntent, MerchantError>)
      requires Inv(Now()) && NoWinner(Now(), id)
      requires id in intents && intents[id].order == Some(order) && intents[id].status.IntentBooked?
      modifies this, db
      ensures Inv(Now()) && Reaches(old(Now()), Now())
      ensures r.Success? ==>
                && id in intents && intents[id] == r.value && r.value.status.IntentBooked? && r.value.order == Some(order)
                && order in db.state.orders && db.state.orders[order].status.Booked?
                && Carries(db.state.orders[order], r.value)
    {
      ghost var start := Now();
      Interfere(tid);
      CompletedStays(start, Now(), id, order);
      ghost var mid := Now();
      var now: int := *;
      r := GetIntentForCustomer(customer, id, now);
      ReachesJoin(start, mid, Now());
      assert r.Success? ==> IntentOk(Now(), id);
    }
  }

  /** The record was the only winner's last step. */
  lemma RecordLeavesNoWinner(w: World, tid: Uuid)
    requires Inv(w) && InPhase(w, tid) && w.approvals[tid].phase.Settled?
    ensures NoWinner(Apply(w, Record(tid)), w.approvals[tid].intent)
  {
    var t, id := Apply(w, Record(tid)), w.approvals[tid].intent;
    forall other | other in t.approvals && Winner(t, other) ensures t.approvals[other].intent != id {
      if t.approvals[other].intent == id {
        assert SameIntentWinners(w, tid, other);
      }
    }
  }

  lemma {:induction false} OrderStays(w: World, steps: seq<Step>, order: Uuid)
    requires order in w.bank.orders
    ensures order in Run(w, steps).bank.orders && Identity(Run(w, steps).bank.orders[order]) == Identity(w.bank.orders[order])
    decreases |steps|
  {
    if steps != [] {
      match steps[0] {
        case BankStep(b) => StepMovesOrder(w.bank, b, order);
        case Settle(tid, now, txId, _) =>
          if tid in w.approvals && w.approvals[tid].phase.Linked? {
            StepMovesOrder(w.bank, B.Confirm(w.approvals[tid].customer, w.approvals[tid].phase.order, false, now, txId), order);
          }
        case _ =>
      }
      OrderStays(Apply(w, steps[0]), steps[1..], order);
    }
  }

  lemma OrderedStays(w: World, t: World, order: Uuid, customer: Uuid, source: Uuid, id: Uuid)
    requires Reaches(w, t) && OrderedBy(w.bank, order, customer, source, id)
    ensures OrderedBy(t.bank, order, customer, source, id)
  {
    var steps :| t == Run(w, steps);
    OrderStays(w, steps, order);
    var o, p := w.bank.orders[order], t.bank.orders[order];
    assert Identity(o).owner == o.owner && Identity(o).source == o.source && Identity(o).key == o.key;
    assert Identity(p).owner == p.owner && Identity(p).source == p.source && Identity(p).key == p.key;
  }

  predicate HasReference(w: World, i: Uuid, merchant: string, reference: string) {
    i in w.intents && w.intents[i].merchant == merchant && w.intents[i].reference == reference
  }

  /** An input that CreateIntent does not refuse by itself. */
  predicate Acceptable(merchants: map<string, MerchantConfig>, merchant: string, reference: string, amount: Option<int>,
                       currency: string) {
    && currency == "EUR" && merchant != "" && 1 <= |reference| <= 140 && amount.Some? && amount.value > 0
    && merchant in merchants && merchants[merchant].active
  }

  /** Once a reference is taken, nobody adds another intent under it. */
  lemma {:induction false} ReferenceTaken(w: World, steps: seq<Step>, merchant: string, reference: string, i: Uuid)
    requires !ReferenceFree(w, merchant, reference) && HasReference(Run(w, steps), i, merchant, reference)
    ensures i in w.intents && Terms(Run(w, steps).intents[i]) == Terms(w.intents[i])
    decreases |steps|
  {
    if steps != [] {
      var t := Apply(w, steps[0]);
      var taken :| taken in w.intents && w.intents[taken].merchant == merchant && w.intents[taken].reference == reference;
      StepKeepsTerms(w, steps[0], taken);
      ReferenceTaken(t, steps[1..], merchant, reference, i);
      assert Terms(Run(t, steps[1..]).intents[i]) == Terms(t.intents[i]);
      assert Terms(t.intents[i]).merchant == merchant && Terms(t.intents[i]).reference == reference;
      if i in w.intents {
        StepKeepsTerms(w, steps[0], i);
      }
    }
  }

  lemma StepKeepsTerms(w: World, step: Step, i: Uuid)
    requires i in w.intents
    ensures i in Apply(w, step).intents && Terms(Apply(w, step).intents[i]) == Terms(w.intents[i])
    ensures Terms(Apply(w, step).intents[i]).merchant == w.intents[i].merchant
    ensures Terms(Apply(w, step).intents[i]).reference == w.intents[i].reference
  {
  }

  lemma ReferenceStaysTaken(w: World, t: World, merchant: string, reference: string)
    requires Reaches(w, t) && !ReferenceFree(w, merchant, reference)
    ensures forall i :: HasReference(t, i, merchant, reference) ==> i in w.intents && Terms(t.intents[i]) == Terms(w.intents[i])
  {
    var steps :| t == Run(w, steps);
    forall i | HasReference(t, i, merchant, reference) ensures i in w.intents && Terms(t.intents[i]) == Terms(w.intents[i]) {
      ReferenceTaken(w, steps, merchant, reference, i);
    }
  }

  lemma TakenBy(w: World, merchant: string, reference: string) returns (i: Uuid)
    requires !ReferenceFree(w, merchant, reference)
    ensures HasReference(w, i, merchant, reference)
  {
    i :| i in w.intents && w.intents[i].merchant == merchant && w.intents[i].reference == reference;
  }

  lemma StillTaken(w: World, t: World, merchant: string, reference: string)
    requires Reaches(w, t) && !ReferenceFree(w, merchant, reference)
    ensures !ReferenceFree(t, merchant, reference)
  {
    var taken := TakenBy(w, merchant, reference);
    TermsReach(w, t, taken);
    assert Terms(t.intents[taken]).merchant == merchant && Terms(t.intents[taken]).reference == reference;
  }

  predicate OrderedBy(s: B.State, order: Uuid, customer: Uuid, source: Uuid, id: Uuid) {
    && order in s.orders && s.orders[order].owner == customer && s.orders[order].source == source
    && s.orders[order].key == "merchant:" + Decimal.Digits(id)
  }

  /** A committed confirmation of the linked order, after whatever the payment core did before, is a settlement. */
  lemma ConfirmationSettles(start: World, before: B.State, tid: Uuid, now: int, txId: Uuid, reply: Reply, after: B.State)
    requires Inv(start) && InPhase(start, tid) && start.approvals[tid].phase.Linked? && B.Reachable(start.bank, before)
    requires after != before
    requires after == B.Apply(before, B.Confirm(start.approvals[tid].customer, start.approvals[tid].phase.order, false, now, txId))
    ensures var a := start.approvals[tid];
      && a.phase.order in after.orders
      && (after.orders[a.phase.order].status.Booked? || after.orders[a.phase.order].status.Failed?)
      && var result := ResultOf(after.orders[a.phase.order].status, reply);
      && var phase := if result.None? then Finished else Settled(a.phase.order, result.value);
      && var t := World(after, start.intents, start.approvals[tid := a.(phase := phase)]);
      && Reaches(start, t) && Inv(t)
  {
    var a, mid := start.approvals[tid], start.(bank := before);
    BankReachLifts(start, before);
    ReachesKeeps(start, mid);
    assert ApprovalOk(mid, tid) && IntentOk(mid, a.intent);
    ConfirmChangesStatus(before, a.customer, a.phase.order, now, txId);
    ConfirmBooksOrFails(before, a.customer, a.phase.order, now, txId);
    ReachesStep(start, mid, Merchant.Settle(tid, now, txId, reply));
    StepKeeps(mid, Merchant.Settle(tid, now, txId, reply));
  }

  /** A committed confirmation of an immediate order left it in another status. */
  lemma ConfirmChangesStatus(s: B.State, customer: Uuid, order: Uuid, now: int, txId: Uuid)
    requires BI.Inv(s) && order in s.orders && s.orders[order].schedule.Immediate?
    requires B.Apply(s, B.Confirm(customer, order, false, now, txId)) != s
    ensures var t := B.Apply(s, B.Confirm(customer, order, false, now, txId));
      order in t.orders && t.orders[order].status != s.orders[order].status
  {
    OrderFacts(s, order);
    var o := s.orders[order];
    SettleMovesOrder(s.(orders := s.orders[order := B.ConfirmRow(o, B.ConfirmTarget(o, now), !o.vop.Match?)]), order, txId);
  }

  /** gen_random_uuid() for a new intent. */
  method NewIntentId(intents: map<Uuid, MerchantIntent>) returns (id: Uuid)
    ensures id !in intents
  {
    id := 1;
    var rest := intents.Keys;
    while rest != {}
      invariant forall other :: other in intents && other !in rest ==> other < id
      decreases |rest|
    {
      var other :| other in rest;
      rest := rest - {other};
      if other >= id {
        id := other + 1;
      }
    }
  }
}
