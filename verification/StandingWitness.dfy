/** A concrete run from the empty system in which a customer's own payment order blocks a standing order for good. */
module StandingWitness {
  import opened Wrappers
  import opened Posting
  import opened Lifecycle
  import opened Decimal
  import opened Calendar
  import B = Bank
  import BI = BankInvariant
  import BankPreservation
  import opened Creation
  import Iban
  import S = StandingOrders
  import opened Occurrences

  const SETTLEMENT: Uuid := 9
  const CUSTOMER: Uuid := 1
  const ACCOUNT: Uuid := 2
  const STANDING: Uuid := 20
  const ORDER: Uuid := 6
  const NEXT_ORDER: Uuid := 30

  const CUSTOMER_IBAN := "DE89370400440532013000"

  const FIRST := Calendar.Instant(0, 0)

  /** The key of the first occurrence, which anybody can work out who knows the standing order. */
  const KEY := "standing:20:" + "0000-01-01T00:00:00Z"

  lemma Numerals()
    ensures Digits(20) == "20" && Field(0, 2) == "00" && Field(1, 2) == "01" && Field(0, 4) == "0000"
  {
    assert Digits(2) == "2";
    assert Field(0, 1) == "0" && Field(1, 1) == "1" && Field(0, 3) == "000";
  }

  lemma DayZeroIs()
    ensures MonthOf(0) == 0 && DayOf(0) == 1
  {
    InMonth(0, 0);
  }

  lemma MidnightIs()
    ensures ClockText(0) == "00:00:00Z"
  {
    Numerals();
    hide Field;
  }

  lemma TimeIs()
    ensures Rfc3339(0, 0) == "0000-01-01T00:00:00Z"
  {
    Numerals();
    DayZeroIs();
    MidnightIs();
    hide Field, ClockText, MonthOf, DayOf;
  }

  lemma KeyIs()
    ensures KeyText(S.KeyOf(STANDING, FIRST)) == KEY
  {
    Numerals();
    TimeIs();
    hide Digits, Rfc3339;
    assert S.KeyOf(STANDING, FIRST) == S.Key(20, 0, 0);
    KeyTextFrom("0000-01-01T00:00:00Z");
  }

  lemma KeyTextFrom(time: string)
    ensures "standing:" + ("20" + [':'] + time) == "standing:20:" + time
  {
    assert "20" + [':'] == "20:" && "standing:" + "20:" == "standing:20:";
    Regroup("standing:", "20:", time);
  }

  lemma Regroup(a: string, b: string, c: string)
    ensures a + (b + c) == (a + b) + c
  {
  }

  /** The rent, and the payment that the customer creates under the key of its first occurrence. */
  function Rent(iban: string): Template {
    Template(ACCOUNT, None, "Landlord", iban, None, 100, None, None, false)
  }

  function OwnPayment(iban: string): Input {
    Input(CUSTOMER, ACCOUNT, "Landlord", iban, "", Some(1), Standard, WantImmediate, "", "", 0, KEY, true, true, true)
  }

  function OwnOrder(iban: string): B.PaymentOrder {
    NewOrder(OwnPayment(iban), None, B.Sepa, B.Other, 0)
  }

  const FUND := B.CreateFundedCustomer(CUSTOMER, ACCOUNT, CUSTOMER_IBAN, 500, 3)

  const FUNDED := B.State(
    SETTLEMENT, {CUSTOMER}, {SETTLEMENT, ACCOUNT}, {},
    map[SETTLEMENT := B.Account(None, true, B.SETTLEMENT_IBAN, "EUR", Active, -500, -500),
        ACCOUNT := B.Account(Some(CUSTOMER), false, CUSTOMER_IBAN, "EUR", Active, 500, 500)],
    [B.Entry(ACCOUNT, 0, 500, 3, None), B.Entry(SETTLEMENT, 500, 0, 3, None)], map[], [])

  function Create(iban: string): Step {
    CreateStanding(STANDING, CUSTOMER, FIRST, Weekly, None, None, Rent(iban))
  }

  function Place(iban: string): B.Step {
    B.InsertOrder(ORDER, OwnOrder(iban))
  }

  const ROW := S.NewRow(CUSTOMER, FIRST, Weekly, None, None)

  /** The customer has set up the rent. */
  function SetUp(iban: string): World {
    World(FUNDED.(pinned := {ACCOUNT}), S.Book(map[STANDING := ROW], []), map[STANDING := Rent(iban)], [])
  }

  lemma FundedIs()
    ensures B.Apply(B.Initial(SETTLEMENT), FUND) == FUNDED
  {
    assert CUSTOMER_IBAN[2] != B.SETTLEMENT_IBAN[2];
  }

  lemma SetUpIs(iban: string)
    ensures Apply(World(FUNDED, S.EMPTY, map[], []), Create(iban)) == SetUp(iban)
  {
    assert S.Apply(S.EMPTY, S.Create(STANDING, CUSTOMER, FIRST, Weekly, None, None)) == S.Book(map[STANDING := ROW], []);
    assert Referenced(Rent(iban)) == {ACCOUNT};
  }

  /** A valid input, and its order may be inserted. */
  lemma OwnOrderIsAccepted(iban: string)
    requires Iban.Valid(iban)
    ensures ValidationError(OwnPayment(iban), 0).None?
    ensures B.Insertable(SetUp(iban).bank, ORDER, OwnOrder(iban))
  {
    hide Iban.Valid;
  }

  function Path(iban: string): seq<Step> {
    [BankStep(FUND), Create(iban), BankStep(Place(iban))]
  }

  lemma PathIs(iban: string)
    ensures Run(Initial(SETTLEMENT), Path(iban)) == Apply(SetUp(iban), BankStep(Place(iban)))
  {
    FundedIs();
    SetUpIs(iban);
    hide B.Apply, Apply;
    var steps, mid := Path(iban), World(FUNDED, S.EMPTY, map[], []);
    assert steps[1..][1..] == [BankStep(Place(iban))] && steps[1..][1..][1..] == [];
    assert Apply(Initial(SETTLEMENT), BankStep(FUND)) == mid by {
      FirstStep();
    }
    assert Run(SetUp(iban), steps[1..][1..]) == Apply(SetUp(iban), BankStep(Place(iban)));
    assert Run(mid, steps[1..]) == Run(SetUp(iban), steps[1..][1..]);
  }

  lemma FirstStep()
    ensures Apply(Initial(SETTLEMENT), BankStep(FUND)) == World(FUNDED, S.EMPTY, map[], [])
  {
    FundedIs();
  }

  lemma KeyIsTaken(iban: string)
    requires Iban.Valid(iban)
    ensures KeyTaken(Apply(SetUp(iban), BankStep(Place(iban))), STANDING)
  {
    OwnOrderIsAccepted(iban);
    KeyIs();
    hide B.Apply, B.Insertable, KeyText, Iban.Valid;
    OrderTakesKey(SetUp(iban), STANDING, ORDER, OwnOrder(iban));
  }

  lemma BatchIsProper(iban: string, now: Calendar.Instant)
    requires Iban.Valid(iban)
    ensures ProperBatch(Apply(SetUp(iban), BankStep(Place(iban))), [(STANDING, NEXT_ORDER)], now)
    ensures Apply(SetUp(iban), BankStep(Place(iban))).book.payments == []
  {
    OwnOrderIsAccepted(iban);
    hide B.Insertable, Iban.Valid;
  }

  /** The customer's own order has the key of the next occurrence: the due batch changes nothing, now and in every
      later state, and the rent is never paid. */
  lemma {:induction false} OwnOrderBlocks(iban: string, later: seq<Step>, now: Calendar.Instant)
    requires Iban.Valid(iban)
    ensures ValidationError(OwnPayment(iban), 0).None?
    ensures var w := Run(Initial(SETTLEMENT), Path(iban));
      && Inv(w) && ProperBatch(w, [(STANDING, NEXT_ORDER)], now) && Apply(w, Materialise([(STANDING, NEXT_ORDER)], now)) == w
      && var t := Run(w, later);
      && MaterialiseAll(t, [(STANDING, NEXT_ORDER)], now).None? && S.PaymentsOf(t.book.payments, STANDING) == []
  {
    var w, batch := Run(Initial(SETTLEMENT), Path(iban)), [(STANDING, NEXT_ORDER)];
    OwnOrderIsAccepted(iban);
    PathIs(iban);
    KeyIsTaken(iban);
    BatchIsProper(iban, now);
    hide Path, Run, ProperBatch, KeyTaken, Inv, MaterialiseAll, SetUp, B.Apply, Iban.Valid, ValidationError;
    InitialInv(SETTLEMENT);
    RunKeeps(Initial(SETTLEMENT), Path(iban));
    BlockedForGood(w, later, STANDING, batch, now, 0);
    NothingChanges(w, batch, now);
  }

  lemma NothingChanges(w: World, batch: seq<(Uuid, Uuid)>, now: Calendar.Instant)
    requires KeyTaken(w, STANDING) && |batch| > 0 && batch[0].0 == STANDING
    ensures Apply(w, Materialise(batch, now)) == w
  {
    BlockedForGood(w, [], STANDING, batch, now, 0);
  }
}
