/** Concrete runs from the empty system, showing that the failures described elsewhere do occur. */
module Witnesses {
  import opened Wrappers
  import opened Posting
  import opened Lifecycle
  import B = Bank
  import BI = BankInvariant
  import BankPreservation
  import opened BankRuns
  import opened Creation
  import opened PaymentSystem
  import opened Merchant
  import opened MerchantService

  const SETTLEMENT: Uuid := 9
  const CUSTOMER: Uuid := 1
  const ACCOUNT: Uuid := 2
  const SHOPKEEPER: Uuid := 11
  const SHOP_ACCOUNT: Uuid := 12
  const INTENT: Uuid := 4
  const REQUEST: Uuid := 5
  const ORDER: Uuid := 6

  const CUSTOMER_IBAN := "DE89370400440532013000"
  const SHOP_IBAN := "DE75512108001245126199"

  /** The merchant's owner has an account, to which the row of the merchant refers. */
  const SHOP := B.State(
    SETTLEMENT, {SHOPKEEPER}, {SETTLEMENT, SHOP_ACCOUNT}, {SHOP_ACCOUNT},
    map[SETTLEMENT := B.Account(None, true, B.SETTLEMENT_IBAN, "EUR", Active, 0, 0),
        SHOP_ACCOUNT := B.Account(Some(SHOPKEEPER), false, SHOP_IBAN, "EUR", Active, 0, 0)],
    [], map[], [])

  const OWNER := B.CreateUser(SHOPKEEPER)
  const COUNTER := B.CreateAccount(SHOP_ACCOUNT, SHOPKEEPER, SHOP_IBAN)
  const MERCHANT := B.Pin({SHOP_ACCOUNT})

  function Fund(opening: int): B.Step {
    B.CreateFundedCustomer(CUSTOMER, ACCOUNT, CUSTOMER_IBAN, opening, 3)
  }

  /** One customer with some money. */
  function Opened(opening: int): B.State {
    B.State(SETTLEMENT, {CUSTOMER, SHOPKEEPER}, {SETTLEMENT, SHOP_ACCOUNT, ACCOUNT}, {SHOP_ACCOUNT},
            map[SETTLEMENT := B.Account(None, true, B.SETTLEMENT_IBAN, "EUR", Active, -opening, -opening),
                SHOP_ACCOUNT := B.Account(Some(SHOPKEEPER), false, SHOP_IBAN, "EUR", Active, 0, 0),
                ACCOUNT := B.Account(Some(CUSTOMER), false, CUSTOMER_IBAN, "EUR", Active, opening, opening)],
            [B.Entry(ACCOUNT, 0, opening, 3, None), B.Entry(SETTLEMENT, opening, 0, 3, None)], map[], [])
  }

  const SHOP_INTENT := MerchantIntent("shop", "Shop", SHOP_IBAN, "basket", 20, AwaitingCustomer, None, 1_000)

  /** The payment that the checkout of the intent creates, to the merchant's account. */
  const SHOP_ORDER := NewOrder(RequestFor(INTENT, SHOP_INTENT, CUSTOMER, ACCOUNT), Some(SHOP_ACCOUNT), B.Internal, B.Match, 0)

  function Ordered(opening: int): B.State {
    Opened(opening).(orders := map[ORDER := SHOP_ORDER])
  }

  lemma IbansDiffer()
    ensures CUSTOMER_IBAN != B.SETTLEMENT_IBAN && SHOP_IBAN != B.SETTLEMENT_IBAN && CUSTOMER_IBAN != SHOP_IBAN
  {
    assert CUSTOMER_IBAN[2] != B.SETTLEMENT_IBAN[2] && SHOP_IBAN[2] != B.SETTLEMENT_IBAN[2];
    assert CUSTOMER_IBAN[2] != SHOP_IBAN[2];
  }

  lemma ShopIs()
    ensures B.Apply(B.Apply(B.Apply(B.Initial(SETTLEMENT), OWNER), COUNTER), MERCHANT) == SHOP
  {
    IbansDiffer();
    var s1 := B.Initial(SETTLEMENT).(users := {SHOPKEEPER});
    assert B.Apply(B.Initial(SETTLEMENT), OWNER) == s1;
    assert B.Apply(s1, COUNTER) == SHOP.(pinned := {});
  }

  lemma OpenedIs(opening: int)
    requires opening > 0
    ensures B.Apply(SHOP, Fund(opening)) == Opened(opening)
  {
    IbansDiffer();
    CustomerIs();
    CreditIs(opening);
    FundIsDeposit(SHOP, CUSTOMER, ACCOUNT, CUSTOMER_IBAN, opening, 3);
  }

  const CUSTOMER_ADDED := B.AddAccount(SHOP.(users := SHOP.users + {CUSTOMER}), ACCOUNT, CUSTOMER, CUSTOMER_IBAN)

  lemma CustomerIs()
    ensures CUSTOMER_ADDED == SHOP.(
              users := {CUSTOMER, SHOPKEEPER}, issued := {SETTLEMENT, SHOP_ACCOUNT, ACCOUNT},
              accounts := SHOP.accounts[ACCOUNT := B.Account(Some(CUSTOMER), false, CUSTOMER_IBAN, "EUR", Active, 0, 0)])
    ensures B.DepositError(CUSTOMER_ADDED, ACCOUNT).None?
  {
  }

  lemma CreditIs(opening: int)
    ensures B.DepositState(CUSTOMER_ADDED, ACCOUNT, opening, 3) == Opened(opening)
  {
    CustomerIs();
  }

  lemma FundIsDeposit(s: B.State, user: Uuid, account: Uuid, iban: string, amount: int, txId: Uuid)
    requires user != NIL && user !in s.users && account !in s.issued && B.IbanFree(s, iban) && amount > 0
    requires !B.UsesTx(s.entries, txId)
    requires B.DepositError(B.AddAccount(s.(users := s.users + {user}), account, user, iban), account).None?
    ensures B.Apply(s, B.CreateFundedCustomer(user, account, iban, amount, txId))
         == B.DepositState(B.AddAccount(s.(users := s.users + {user}), account, user, iban), account, amount, txId)
  {
  }

  lemma OrderedIs(opening: int)
    ensures B.Apply(Opened(opening), B.InsertOrder(ORDER, SHOP_ORDER)) == Ordered(opening)
  {
    assert B.Insertable(Opened(opening), ORDER, SHOP_ORDER);
  }

  lemma StepReaches(s: B.State, t: B.State, step: B.Step)
    requires B.Reachable(s, t) && BI.Inv(t)
    ensures B.Reachable(s, B.Apply(t, step)) && BI.Inv(B.Apply(t, step))
  {
    ReachableStep(s, t, step);
    BankPreservation.StepKeeps(t, step);
  }

  lemma OrderedIsReached(opening: int)
    requires opening > 0
    ensures BI.Inv(Ordered(opening)) && B.Reachable(B.Initial(SETTLEMENT), Ordered(opening))
  {
    hide Opened, Ordered, B.Apply, BI.Inv;
    var s0 := B.Initial(SETTLEMENT);
    BankPreservation.InitialInv(SETTLEMENT);
    ReachableRefl(s0);
    ShopIs();
    OpenedIs(opening);
    OrderedIs(opening);
    StepReaches(s0, s0, OWNER);
    StepReaches(s0, B.Apply(s0, OWNER), COUNTER);
    StepReaches(s0, B.Apply(B.Apply(s0, OWNER), COUNTER), MERCHANT);
    StepReaches(s0, SHOP, Fund(opening));
    StepReaches(s0, Opened(opening), B.InsertOrder(ORDER, SHOP_ORDER));
  }

  /** What the confirmation of the order depends on. */
  ghost predicate Waiting(s: B.State, txId: Uuid) {
    && BI.Inv(s) && B.ConfirmReady(s, CUSTOMER, ORDER, false) && s.orders[ORDER] == SHOP_ORDER
    && B.ConfirmTarget(s.orders[ORDER], 0).Processing? && !B.UsesTx(s.entries, txId)
    && ACCOUNT in s.accounts && SHOP_ACCOUNT in s.accounts
    && s.accounts[ACCOUNT].status.Active? && s.accounts[SHOP_ACCOUNT].status.Active?
    && s.accounts[ACCOUNT].currency == s.accounts[SHOP_ACCOUNT].currency
  }

  lemma OrderedWaits(opening: int, txId: Uuid)
    requires opening > 0 && txId > 3
    ensures Waiting(Ordered(opening), txId) && Ordered(opening).accounts[ACCOUNT].balance == opening
    ensures Open(Ordered(opening), ACCOUNT) && Ordered(opening).settlement == SETTLEMENT
  {
    OrderedIsReached(opening);
  }

  /** It books exactly when the account holds the amount. */
  lemma WaitingDecides(s: B.State, txId: Uuid)
    requires Waiting(s, txId)
    ensures OrderIs(B.Apply(s, B.Confirm(CUSTOMER, ORDER, false, 0, txId)), ORDER,
                    if s.accounts[ACCOUNT].balance >= 20 then Booked else Failed)
  {
    ConfirmDecides(s, CUSTOMER, ORDER, false, 0, txId);
  }

  // ----- an error for a BOOKED order -----

  const CONFIRM := ConfirmOp(CUSTOMER, ORDER, false)
  const TOP_UP := B.Deposit(ACCOUNT, 100, 8)

  /** Five in the account and twenty to pay; then a hundred more. */
  const TOPPED_UP := B.Apply(Ordered(5), TOP_UP)

  lemma FirstAttemptFails()
    ensures BI.Inv(Ordered(5)) && WouldFail(Ordered(5), B.Confirm(CUSTOMER, ORDER, false, 0, 7))
  {
    hide Ordered, B.Apply;
    OrderedWaits(5, 7);
    WaitingDecides(Ordered(5), 7);
  }

  lemma DepositKeepsWaiting(s: B.State, amount: int, txId: Uuid, other: Uuid)
    requires Waiting(s, txId) && !B.UsesTx(s.entries, other) && Open(s, ACCOUNT) && amount > 0 && other != txId
    ensures var t := B.Apply(s, B.Deposit(ACCOUNT, amount, txId));
      Waiting(t, other) && t.accounts[ACCOUNT].balance == s.accounts[ACCOUNT].balance + amount
  {
    BankPreservation.StepKeeps(s, B.Deposit(ACCOUNT, amount, txId));
    DepositMovesIff(s, ACCOUNT, amount, txId);
    DepositWrites(s, amount, txId, other);
  }

  lemma DepositWrites(s: B.State, amount: int, txId: Uuid, other: Uuid)
    requires !B.UsesTx(s.entries, other) && other != txId
    ensures var t := B.Apply(s, B.Deposit(ACCOUNT, amount, txId));
      t.orders == s.orders && !B.UsesTx(t.entries, other)
  {
  }

  lemma SecondAttemptBooks()
    ensures BI.Inv(TOPPED_UP) && OrderIs(B.Apply(TOPPED_UP, B.Confirm(CUSTOMER, ORDER, false, 0, 10)), ORDER, Booked)
    ensures B.Apply(TOPPED_UP, B.Confirm(CUSTOMER, ORDER, false, 0, 10)) != TOPPED_UP
  {
    hide Ordered, B.Apply, BI.Inv;
    OrderedWaits(5, 8);
    OrderedWaits(5, 10);
    DepositKeepsWaiting(Ordered(5), 100, 8, 10);
    WaitingDecides(TOPPED_UP, 10);
  }

  /** With too little money the first attempt records AM04 and is aborted; a deposit commits; the second attempt books.
      The confirmation then reports the missing money for a BOOKED order. */
  lemma {:induction false} StaleErrorOccurs() returns (trail: seq<Try>, after: B.State)
    ensures Attempts(CONFIRM, trail) && B.Reachable(B.Initial(SETTLEMENT), trail[0].state)
    ensures Explains(Final(trail), true, after) && OrderIs(after, ORDER, Booked)
    ensures LastRecorded(trail) == Some(InsufficientFunds)
  {
    hide Ordered, B.Apply, BI.Inv;
    var first, second := B.Confirm(CUSTOMER, ORDER, false, 0, 7), B.Confirm(CUSTOMER, ORDER, false, 0, 10);
    OrderedIsReached(5);
    FirstAttemptFails();
    SecondAttemptBooks();
    RunOne(Ordered(5), TOP_UP);
    StaleErrorForBookedOrder(CONFIRM, Ordered(5), first, [TOP_UP], second, InsufficientFunds);
    trail := [Try(Ordered(5), first, Some(InsufficientFunds)), Try(TOPPED_UP, second, None)];
    after := B.Apply(TOPPED_UP, second);
  }

  // ----- intents that stay in PROCESSING -----

  const EMPTY := World(B.Initial(SETTLEMENT), map[], map[])

  /** The approval has created its order and not yet linked it. */
  const PAID := World(Ordered(500), map[INTENT := SHOP_INTENT], map[REQUEST := Approval(INTENT, CUSTOMER, Paid(ORDER))])

  predicate NobodyStops(steps: seq<Merchant.Step>) {
    forall i :: 0 <= i < |steps| ==> !steps[i].Abandon?
  }

  lemma RunThen(w: World, steps: seq<Merchant.Step>, step: Merchant.Step, t: World, u: World)
    requires Merchant.Run(w, steps) == t && Merchant.Apply(t, step) == u
    ensures Merchant.Run(w, steps + [step]) == u
  {
    RunJoins(w, steps, [step]);
    assert Merchant.Run(t, [step]) == Merchant.Run(Merchant.Apply(t, step), []);
  }

  const OFFER := Merchant.CreateIntent(INTENT, SHOP_INTENT)
  const START := Start(REQUEST, INTENT, CUSTOMER, ACCOUNT, 0)
  const PLACE := BankStep(B.InsertOrder(ORDER, SHOP_ORDER))
  const PAY := Pay(REQUEST, ORDER)

  const OFFERED := World(Opened(500), map[INTENT := SHOP_INTENT], map[])
  const STARTED := World(Opened(500), map[INTENT := SHOP_INTENT], map[REQUEST := Approval(INTENT, CUSTOMER, Checked(ACCOUNT))])
  const PLACED := World(Ordered(500), map[INTENT := SHOP_INTENT], map[REQUEST := Approval(INTENT, CUSTOMER, Checked(ACCOUNT))])

  /** A world without intents and approvals. */
  function Only(s: B.State): World {
    World(s, map[], map[])
  }

  lemma BankRunThen(steps: seq<Merchant.Step>, step: B.Step, s: B.State, t: B.State)
    requires Merchant.Run(EMPTY, steps) == Only(s) && B.Apply(s, step) == t
    ensures Merchant.Run(EMPTY, steps + [BankStep(step)]) == Only(t)
  {
    hide B.Apply, Merchant.Run;
    RunThen(EMPTY, steps, BankStep(step), Only(s), Only(t));
  }

  const TO_SHOP := [BankStep(OWNER)] + [BankStep(COUNTER)] + [BankStep(MERCHANT)]
  const TO_OPENED := TO_SHOP + [BankStep(Fund(500))]

  lemma OpenedIsReached()
    ensures Merchant.Run(EMPTY, TO_OPENED) == Only(Opened(500))
  {
    hide B.Apply, Opened;
    ShopIs();
    OpenedIs(500);
    var s0 := B.Initial(SETTLEMENT);
    assert [] + [BankStep(OWNER)] == [BankStep(OWNER)];
    BankRunThen([], OWNER, s0, B.Apply(s0, OWNER));
    BankRunThen([BankStep(OWNER)], COUNTER, B.Apply(s0, OWNER), B.Apply(B.Apply(s0, OWNER), COUNTER));
    BankRunThen([BankStep(OWNER)] + [BankStep(COUNTER)], MERCHANT, B.Apply(B.Apply(s0, OWNER), COUNTER), SHOP);
    BankRunThen(TO_SHOP, Fund(500), SHOP, Opened(500));
  }

  lemma OfferIsMade()
    ensures Merchant.Apply(Only(Opened(500)), OFFER) == OFFERED
  {
    hide Opened;
  }

  lemma RequestStarts()
    ensures Merchant.Apply(OFFERED, START) == STARTED
  {
    hide Opened;
  }

  lemma OrderIsPlaced()
    ensures Merchant.Apply(STARTED, PLACE) == PLACED
  {
    OrderedIs(500);
    hide Opened, Ordered, B.Apply;
  }

  lemma OrderIsFound()
    ensures Merchant.Apply(PLACED, PAY) == PAID
  {
    assert Matches(Ordered(500), ORDER, RequestFor(INTENT, SHOP_INTENT, CUSTOMER, ACCOUNT));
  }

  const PATH := TO_OPENED + [OFFER] + [START] + [PLACE] + [PAY]

  lemma PaidIsReached()
    ensures Merchant.Run(EMPTY, PATH) == PAID && NobodyStops(PATH)
  {
    hide Merchant.Apply, Merchant.Run, Opened, Ordered;
    OpenedIsReached();
    OfferIsMade();
    RequestStarts();
    OrderIsPlaced();
    OrderIsFound();
    RunThen(EMPTY, TO_OPENED, OFFER, Only(Opened(500)), OFFERED);
    RunThen(EMPTY, TO_OPENED + [OFFER], START, OFFERED, STARTED);
    RunThen(EMPTY, TO_OPENED + [OFFER] + [START], PLACE, STARTED, PLACED);
    RunThen(EMPTY, TO_OPENED + [OFFER] + [START] + [PLACE], PAY, PLACED, PAID);
  }

  lemma PaidIsGood()
    ensures Merchant.Inv(PAID)
  {
    PaidIsReached();
    BankPreservation.InitialInv(SETTLEMENT);
    Merchant.RunKeeps(EMPTY, PATH);
  }

  lemma PaidIsUnlinked()
    ensures InPhase(PAID, REQUEST) && Linkable(PAID, INTENT, ORDER)
    ensures ORDER in PAID.bank.orders && !PAID.bank.orders[ORDER].status.Booked?
  {
  }

  /** The order is worth its money, so a confirmation books it. */
  lemma ConfirmationBooks(txId: Uuid)
    requires txId > 3
    ensures OrderIs(B.Apply(Ordered(500), B.Confirm(CUSTOMER, ORDER, false, 0, txId)), ORDER, Booked)
  {
    hide Ordered, B.Apply;
    OrderedWaits(500, txId);
    WaitingDecides(Ordered(500), txId);
  }

  /** Nobody stops, nothing fails: the customer confirms the order while the approval has not linked it yet. The
      approval ends, and the intent stays in PROCESSING in every later state. */
  lemma {:induction false} LagsWithoutCrash() returns (steps: seq<Merchant.Step>)
    ensures var w := Merchant.Run(EMPTY, steps);
      && NobodyStops(steps) && REQUEST in w.approvals && w.approvals[REQUEST].phase.Finished?
      && forall more :: LagsAfter(w, more, INTENT)
  {
    hide Merchant.Run, Opened, Ordered, Linkable, B.Apply;
    PaidIsReached();
    PaidIsGood();
    ConfirmationBooks(7);
    PaidIsUnlinked();
    steps := BookedElsewhere(EMPTY, PATH, PAID, REQUEST, B.Confirm(CUSTOMER, ORDER, false, 0, 7));
  }

  /** From any approval that has its order and not linked it: somebody else books the order first. */
  lemma BookedElsewhere(start: World, path: seq<Merchant.Step>, w: World, tid: Uuid, confirm: B.Step)
    returns (steps: seq<Merchant.Step>)
    requires Merchant.Run(start, path) == w && NobodyStops(path) && Merchant.Inv(w)
    requires InPhase(w, tid) && w.approvals[tid].phase.Paid? && Linkable(w, w.approvals[tid].intent, w.approvals[tid].phase.order)
    requires OrderIs(B.Apply(w.bank, confirm), w.approvals[tid].phase.order, Booked)
    ensures var t := Merchant.Run(start, steps);
      && NobodyStops(steps) && tid in t.approvals && t.approvals[tid].phase.Finished?
      && forall more :: LagsAfter(t, more, w.approvals[tid].intent)
  {
    hide B.Apply, BI.Inv, Merchant.Run;
    var settle := Merchant.Settle(tid, 0, 8, Told);
    var booked := Merchant.Apply(w, BankStep(confirm));
    var linked := Merchant.Apply(booked, Merchant.Link(tid));
    var ended := Merchant.Apply(linked, settle);
    Merchant.StepKeeps(w, BankStep(confirm));
    RunThen(start, path, BankStep(confirm), w, booked);
    RunThen(start, path + [BankStep(confirm)], Merchant.Link(tid), booked, linked);
    RunThen(start, path + [BankStep(confirm)] + [Merchant.Link(tid)], settle, linked, ended);
    steps := path + [BankStep(confirm)] + [Merchant.Link(tid)] + [settle];
    BookedBeforeLinkLags(booked, tid, 0, 8, Told, []);
    forall more ensures LagsAfter(ended, more, w.approvals[tid].intent) {
      BookedBeforeLinkLags(booked, tid, 0, 8, Told, more);
    }
  }

  /** The approval books the order and stops before it records the booking. */
  lemma {:induction false} LagsAfterCrash() returns (steps: seq<Merchant.Step>)
    ensures forall more :: LagsAfter(Merchant.Run(EMPTY, steps), more, INTENT)
  {
    hide Merchant.Run, Opened, Ordered, Linkable, B.Apply;
    PaidIsReached();
    PaidIsGood();
    ConfirmationBooks(7);
    PaidIsUnlinked();
    steps := BookedAndStopped(EMPTY, PATH, PAID, REQUEST, 0, 7);
  }

  lemma BookedAndStopped(start: World, path: seq<Merchant.Step>, w: World, tid: Uuid, now: int, txId: Uuid)
    returns (steps: seq<Merchant.Step>)
    requires Merchant.Run(start, path) == w && Merchant.Inv(w)
    requires InPhase(w, tid) && w.approvals[tid].phase.Paid? && Linkable(w, w.approvals[tid].intent, w.approvals[tid].phase.order)
    requires var a := w.approvals[tid];
      && a.phase.order in w.bank.orders && !w.bank.orders[a.phase.order].status.Booked?
      && OrderIs(B.Apply(w.bank, B.Confirm(a.customer, a.phase.order, false, now, txId)), a.phase.order, Booked)
    ensures forall more :: LagsAfter(Merchant.Run(start, steps), more, w.approvals[tid].intent)
  {
    var settle := Merchant.Settle(tid, now, txId, Told);
    var linked := Merchant.Apply(w, Merchant.Link(tid));
    var settled := Merchant.Apply(linked, settle);
    var stopped := Merchant.Apply(settled, Abandon(tid));
    LinkedAndSettled(w, tid, now, txId);
    hide Merchant.Apply, Merchant.Run, B.Apply;
    RunThen(start, path, Merchant.Link(tid), w, linked);
    RunThen(start, path + [Merchant.Link(tid)], settle, linked, settled);
    RunThen(start, path + [Merchant.Link(tid)] + [settle], Abandon(tid), settled, stopped);
    steps := path + [Merchant.Link(tid)] + [settle] + [Abandon(tid)];
    forall more ensures LagsAfter(stopped, more, w.approvals[tid].intent) {
      CrashLeavesProcessing(settled, tid, more);
    }
  }

  lemma LinkedAndSettled(w: World, tid: Uuid, now: int, txId: Uuid)
    requires Merchant.Inv(w)
    requires InPhase(w, tid) && w.approvals[tid].phase.Paid? && Linkable(w, w.approvals[tid].intent, w.approvals[tid].phase.order)
    requires var a := w.approvals[tid];
      && a.phase.order in w.bank.orders && !w.bank.orders[a.phase.order].status.Booked?
      && OrderIs(B.Apply(w.bank, B.Confirm(a.customer, a.phase.order, false, now, txId)), a.phase.order, Booked)
    ensures var t := Merchant.Apply(Merchant.Apply(w, Merchant.Link(tid)), Merchant.Settle(tid, now, txId, Told));
      && Merchant.Inv(t) && InPhase(t, tid) && t.approvals[tid].intent == w.approvals[tid].intent
      && t.approvals[tid].phase == Settled(w.approvals[tid].phase.order, IntentBooked)
  {
    hide B.Apply, BI.Inv;
    var linked := Merchant.Apply(w, Merchant.Link(tid));
    Merchant.StepKeeps(w, Merchant.Link(tid));
    Merchant.StepKeeps(linked, Merchant.Settle(tid, now, txId, Told));
  }
}
