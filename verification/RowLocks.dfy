/** Row locks of concurrent transactions, and why ordered lockers never deadlock. */
module RowLocks {
  import opened Wrappers

  type Tid = nat

  datatype Row = OrderRow(id: nat) | AccountRow(id: nat)

  /** An order in which rows may be locked: payment orders before accounts, each by ascending id, apart from one account
      that may come before all others. */
  predicate Below(low: Option<nat>, a: Row, b: Row) {
    match (a, b)
    case (OrderRow(x), OrderRow(y)) => x < y
    case (OrderRow(_), AccountRow(_)) => true
    case (AccountRow(_), OrderRow(_)) => false
    case (AccountRow(x), AccountRow(y)) => low != Some(y) && (low == Some(x) || x < y)
  }

  predicate Ascending(low: Option<nat>, plan: seq<Row>) {
    forall i, j :: 0 <= i < j < |plan| ==> Below(low, plan[i], plan[j])
  }

  // ----- what the transactions lock, in order -----

  /** `ORDER BY id FOR UPDATE` on two accounts. */
  function InIdOrder(a: nat, b: nat): (plan: seq<Row>)
    ensures Ascending(None, plan) && (forall r :: r in plan <==> r == AccountRow(a) || r == AccountRow(b))
  {
    if a < b then [AccountRow(a), AccountRow(b)]
    else if b < a then [AccountRow(b), AccountRow(a)]
    else [AccountRow(a)]
  }

  /** Both accounts of the transfer and nothing else, each once, the lower id first. */
  function TransferPlan(from: nat, to: nat): (plan: seq<Row>)
    ensures Ascending(None, plan) && |plan| == (if from == to then 1 else 2)
    ensures forall r :: r in plan <==> r == AccountRow(from) || r == AccountRow(to)
  {
    InIdOrder(from, to)
  }

  /** The order row first, then both accounts and nothing else. */
  function BookingPlan(order: nat, source: nat, destination: nat): (plan: seq<Row>)
    ensures Ascending(None, plan) && |plan| == (if source == destination then 2 else 3) && plan[0] == OrderRow(order)
    ensures forall r :: r in plan <==> r == OrderRow(order) || r == AccountRow(source) || r == AccountRow(destination)
  {
    [OrderRow(order)] + InIdOrder(source, destination)
  }

  /** Deposits and withdrawals lock the settlement account first, whatever the ids are. */
  function ExternalPlan(settlement: nat, account: nat): (plan: seq<Row>)
    requires settlement != account
    ensures |plan| == 2 && plan[0] == AccountRow(settlement) && plan[1] == AccountRow(account)
    ensures Ascending(None, plan) <==> settlement < account
  {
    var plan := [AccountRow(settlement), AccountRow(account)];
    assert Below(None, plan[0], plan[1]) <==> settlement < account;
    plan
  }

  // ----- the machine -----

  /** A transaction has locked the first `got` rows of its plan. */
  datatype Txn = Txn(plan: seq<Row>, got: nat)

  datatype Locks = Locks(owner: map<Row, Tid>, txns: map<Tid, Txn>)

  datatype Step = Begin(tid: Tid, plan: seq<Row>) | Acquire(tid: Tid) | Finish(tid: Tid)

  /** The next row that a transaction needs. */
  predicate Wants(s: Locks, t: Tid, r: Row) {
    t in s.txns && s.txns[t].got < |s.txns[t].plan| && s.txns[t].plan[s.txns[t].got] == r
  }

  function Apply(s: Locks, step: Step): Locks {
    match step
    case Begin(t, plan) =>
      if t in s.txns then s else s.(txns := s.txns[t := Txn(plan, 0)])
    case Acquire(t) =>
      if t !in s.txns || s.txns[t].got >= |s.txns[t].plan| then s
      else
        var r := s.txns[t].plan[s.txns[t].got];
        if r in s.owner then s
        else Locks(s.owner[r := t], s.txns[t := s.txns[t].(got := s.txns[t].got + 1)])
    case Finish(t) =>
      if t !in s.txns || s.txns[t].got < |s.txns[t].plan| then s
      else Locks(map r | r in s.owner && s.owner[r] != t :: s.owner[r], s.txns - {t})
  }

  function Run(s: Locks, steps: seq<Step>): Locks
    decreases |steps|
  {
    if steps == [] then s else Run(Apply(s, steps[0]), steps[1..])
  }

  const FREE := Locks(map[], map[])

  /** Every transaction that begins has an ascending plan. */
  predicate OrderedLockers(low: Option<nat>, steps: seq<Step>) {
    forall i :: 0 <= i < |steps| && steps[i].Begin? ==> Ascending(low, steps[i].plan)
  }

  ghost predicate Inv(low: Option<nat>, s: Locks) {
    && (forall t :: t in s.txns ==> s.txns[t].got <= |s.txns[t].plan| && Ascending(low, s.txns[t].plan))
    && (forall r :: r in s.owner ==> s.owner[r] in s.txns && r in s.txns[s.owner[r]].plan[..s.txns[s.owner[r]].got])
  }

  lemma StepKeeps(low: Option<nat>, s: Locks, step: Step)
    requires Inv(low, s) && (step.Begin? ==> Ascending(low, step.plan))
    ensures Inv(low, Apply(s, step))
  {
    var t := Apply(s, step);
    forall r | r in t.owner ensures t.owner[r] in t.txns && r in t.txns[t.owner[r]].plan[..t.txns[t.owner[r]].got] {
      if step.Acquire? && t != s && t.owner[r] == step.tid {
        var txn := s.txns[step.tid];
        assert t.txns[step.tid].plan[..txn.got + 1] == txn.plan[..txn.got] + [txn.plan[txn.got]];
      }
    }
  }

  lemma {:induction false} RunKeeps(low: Option<nat>, s: Locks, steps: seq<Step>)
    requires Inv(low, s) && OrderedLockers(low, steps)
    ensures Inv(low, Run(s, steps))
    decreases |steps|
  {
    if steps != [] {
      StepKeeps(low, s, steps[0]);
      RunKeeps(low, Apply(s, steps[0]), steps[1..]);
    }
  }

  // ----- no deadlock -----

  /** `a` waits for a row that `b` holds, and `b` waits for a row. */
  ghost predicate WaitsFor(s: Locks, a: Tid, r: Row, b: Tid) {
    Wants(s, a, r) && r in s.owner && s.owner[r] == b
  }

  /** A cycle in the wait-for graph: each transaction waits for the row `rows[i]`, held by the next one. */
  ghost predicate WaitCycle(s: Locks, tids: seq<Tid>, rows: seq<Row>) {
    && |tids| == |rows| > 0
    && forall i :: 0 <= i < |tids| ==> WaitsFor(s, tids[i], rows[i], tids[if i + 1 == |tids| then 0 else i + 1])
  }

  lemma BelowTransitive(low: Option<nat>, a: Row, b: Row, c: Row)
    requires Below(low, a, b) && Below(low, b, c)
    ensures Below(low, a, c)
  {
  }

  /** Whoever holds a row and waits for another one waits for a higher one. */
  lemma WaitsHigher(low: Option<nat>, s: Locks, t: Tid, held: Row, wanted: Row)
    requires Inv(low, s) && held in s.owner && s.owner[held] == t && Wants(s, t, wanted)
    ensures Below(low, held, wanted)
  {
    var txn := s.txns[t];
    var i :| 0 <= i < txn.got && txn.plan[..txn.got][i] == held;
    assert txn.plan[i] == held;
  }

  /** Along a chain of waiting transactions the awaited rows strictly increase. */
  lemma {:induction false} ChainIncreases(low: Option<nat>, s: Locks, tids: seq<Tid>, rows: seq<Row>, k: nat)
    requires Inv(low, s) && WaitCycle(s, tids, rows) && 0 < k < |rows|
    ensures Below(low, rows[0], rows[k])
  {
    assert WaitsFor(s, tids[k - 1], rows[k - 1], tids[k]) && WaitsFor(s, tids[k], rows[k], tids[if k + 1 == |tids| then 0 else k + 1]);
    WaitsHigher(low, s, tids[k], rows[k - 1], rows[k]);
    if k > 1 {
      ChainIncreases(low, s, tids, rows, k - 1);
      BelowTransitive(low, rows[0], rows[k - 1], rows[k]);
    }
  }

  /** No run of transactions that lock in one such order, however many, contains a wait-for cycle. */
  lemma {:induction false} NoWaitCycle(low: Option<nat>, steps: seq<Step>, tids: seq<Tid>, rows: seq<Row>)
    requires OrderedLockers(low, steps)
    ensures !WaitCycle(Run(FREE, steps), tids, rows)
  {
    RunKeeps(low, FREE, steps);
    var s := Run(FREE, steps);
    if WaitCycle(s, tids, rows) {
      var last := |tids| - 1;
      assert WaitsFor(s, tids[last], rows[last], tids[0]);
      assert WaitsFor(s, tids[0], rows[0], tids[if 1 == |tids| then 0 else 1]);
      WaitsHigher(low, s, tids[0], rows[last], rows[0]);
      if last > 0 {
        ChainIncreases(low, s, tids, rows, last);
        BelowTransitive(low, rows[0], rows[last], rows[0]);
      }
    }
  }

  /** A transaction whose next step is not blocked. */
  predicate CanMove(s: Locks, t: Tid) {
    t in s.txns && (s.txns[t].got >= |s.txns[t].plan| || s.txns[t].plan[s.txns[t].got] !in s.owner)
  }

  /** The row that a blocked transaction waits for. */
  function Target(s: Locks, t: Tid): Row {
    if t in s.txns && s.txns[t].got < |s.txns[t].plan| then s.txns[t].plan[s.txns[t].got] else OrderRow(0)
  }

  lemma {:induction false} HighestWaiter(low: Option<nat>, s: Locks, tids: set<Tid>) returns (t: Tid)
    requires tids != {}
    ensures t in tids && forall u :: u in tids ==> !Below(low, Target(s, t), Target(s, u))
    decreases |tids|
  {
    var first :| first in tids;
    var rest := tids - {first};
    if rest == {} {
      assert tids == {first};
      return first;
    }
    var best := HighestWaiter(low, s, rest);
    t := if Below(low, Target(s, best), Target(s, first)) then first else best;
    forall u | u in tids ensures !Below(low, Target(s, t), Target(s, u)) {
      assert u == first || u in rest;
      if t == first && Below(low, Target(s, first), Target(s, u)) {
        BelowTransitive(low, Target(s, best), Target(s, first), Target(s, u));
      }
    }
  }

  /** Hence somebody can always make progress: the holder of the highest awaited row. */
  lemma {:induction false} SomeoneCanMove(low: Option<nat>, steps: seq<Step>)
    requires OrderedLockers(low, steps) && Run(FREE, steps).txns != map[]
    ensures exists t :: CanMove(Run(FREE, steps), t)
  {
    RunKeeps(low, FREE, steps);
    var s := Run(FREE, steps);
    assert s.txns.Keys != {};
    var some :| some in s.txns;
    var blocked := set t | t in s.txns && !CanMove(s, t);
    if some in blocked {
      var t := HighestWaiter(low, s, blocked);
      var holder := s.owner[Target(s, t)];
      if holder in blocked {
        WaitsHigher(low, s, holder, Target(s, t), Target(s, holder));
      }
      assert CanMove(s, holder);
    }
  }

  lemma RunFive(s: Locks, a: Step, b: Step, c: Step, d: Step, e: Step)
    ensures Run(s, [a, b, c, d, e]) == Apply(Apply(Apply(Apply(Apply(s, a), b), c), d), e)
  {
    var s1, s2 := Apply(s, a), Apply(Apply(s, a), b);
    var s3, s4 := Apply(s2, c), Apply(Apply(s2, c), d);
    assert [a, b, c, d, e][1..] == [b, c, d, e] && [b, c, d, e][1..] == [c, d, e];
    assert [c, d, e][1..] == [d, e] && [d, e][1..] == [e] && [e][1..] == [];
    assert Run(s4, [e]) == Run(Apply(s4, e), []);
    assert Run(s3, [d, e]) == Run(s4, [e]);
    assert Run(s2, [c, d, e]) == Run(s3, [d, e]);
    assert Run(s1, [b, c, d, e]) == Run(s2, [c, d, e]);
  }

  /** Without a common order: a deposit and an external booking do deadlock when the settlement account's id is the higher
      one, because the deposit locks it first. */
  lemma DepositAndBookingCanDeadlock(settlement: nat, account: nat, order: nat)
    requires account < settlement
    ensures var steps := [Begin(0, ExternalPlan(settlement, account)), Begin(1, BookingPlan(order, account, settlement)),
                          Acquire(0), Acquire(1), Acquire(1)];
      WaitCycle(Run(FREE, steps), [0, 1], [AccountRow(account), AccountRow(settlement)])
  {
    var deposit, booking := ExternalPlan(settlement, account), BookingPlan(order, account, settlement);
    RunFive(FREE, Begin(0, deposit), Begin(1, booking), Acquire(0), Acquire(1), Acquire(1));
    var s2 := Apply(Apply(FREE, Begin(0, deposit)), Begin(1, booking));
    var s5 := Apply(Apply(Apply(s2, Acquire(0)), Acquire(1)), Acquire(1));
    assert s2 == Locks(map[], map[0 := Txn(deposit, 0), 1 := Txn(booking, 0)]);
    assert s5.txns[0] == Txn([AccountRow(settlement), AccountRow(account)], 1);
    assert s5.txns[1].got == 2 && s5.txns[1].plan == [OrderRow(order), AccountRow(account), AccountRow(settlement)];
    assert WaitsFor(s5, 0, AccountRow(account), 1) && WaitsFor(s5, 1, AccountRow(settlement), 0);
  }

  // ----- which mixes of transactions are safe -----

  /** What runs at the same time: transfers between customers, bookings between customers, bookings to the settlement
      account, and deposits or withdrawals. */
  datatype Mix = Mix(transfers: bool, internal: bool, outgoing: bool, external: bool)

  /** The plan belongs to one of the transactions of the mix on these customer accounts. */
  ghost predicate Planned(mix: Mix, settlement: nat, accounts: iset<nat>, plan: seq<Row>) {
    || (mix.transfers && exists a, b :: IsTransfer(accounts, plan, a, b))
    || (mix.internal && exists order, a, b :: IsInternal(accounts, plan, order, a, b))
    || (mix.outgoing && exists order, a :: IsOutgoing(settlement, accounts, plan, order, a))
    || (mix.external && exists a :: IsExternal(settlement, accounts, plan, a))
  }

  ghost predicate IsTransfer(accounts: iset<nat>, plan: seq<Row>, a: nat, b: nat) {
    a in accounts && b in accounts && plan == TransferPlan(a, b)
  }

  ghost predicate IsInternal(accounts: iset<nat>, plan: seq<Row>, order: nat, a: nat, b: nat) {
    a in accounts && b in accounts && plan == BookingPlan(order, a, b)
  }

  ghost predicate IsOutgoing(settlement: nat, accounts: iset<nat>, plan: seq<Row>, order: nat, a: nat) {
    a in accounts && plan == BookingPlan(order, a, settlement)
  }

  ghost predicate IsExternal(settlement: nat, accounts: iset<nat>, plan: seq<Row>, a: nat) {
    a in accounts && a != settlement && plan == ExternalPlan(settlement, a)
  }

  ghost predicate RunsMix(mix: Mix, settlement: nat, accounts: iset<nat>, steps: seq<Step>) {
    forall i :: 0 <= i < |steps| && steps[i].Begin? ==> Planned(mix, settlement, accounts, steps[i].plan)
  }

  /** This run of the mix ends in this wait-for cycle. */
  ghost predicate Deadlocks(mix: Mix, settlement: nat, accounts: iset<nat>, steps: seq<Step>, tids: seq<Tid>, rows: seq<Row>) {
    RunsMix(mix, settlement, accounts, steps) && WaitCycle(Run(FREE, steps), tids, rows)
  }

  lemma PairFits(low: nat, a: nat, b: nat)
    requires a != low && (b == low ==> low < a)
    ensures Ascending(Some(low), InIdOrder(a, b))
  {
  }

  lemma BookingFits(low: nat, order: nat, a: nat, b: nat)
    requires a != low && (b == low ==> low < a)
    ensures Ascending(Some(low), BookingPlan(order, a, b))
  {
    PairFits(low, a, b);
    var plan := BookingPlan(order, a, b);
    forall i, j | 0 <= i < j < |plan| ensures Below(Some(low), plan[i], plan[j]) {
      assert plan[j] == InIdOrder(a, b)[j - 1];
    }
  }

  /** Without outgoing bookings, or without deposits and withdrawals, or when the settlement id is lower than those of all
      customer accounts, one order fits all plans. */
  lemma PlanFits(mix: Mix, settlement: nat, accounts: iset<nat>, plan: seq<Row>)
    requires settlement !in accounts && Planned(mix, settlement, accounts, plan)
    requires !(mix.outgoing && mix.external) || forall a :: a in accounts ==> settlement < a
    ensures Ascending(if mix.external then Some(settlement) else None, plan)
  {
    if mix.external {
      if a, b :| IsTransfer(accounts, plan, a, b) {
        PairFits(settlement, a, b);
      } else if order, a, b :| IsInternal(accounts, plan, order, a, b) {
        BookingFits(settlement, order, a, b);
      } else if mix.outgoing && exists order, a :: IsOutgoing(settlement, accounts, plan, order, a) {
        var order, a :| IsOutgoing(settlement, accounts, plan, order, a);
        BookingFits(settlement, order, a, settlement);
      } else {
        var a :| IsExternal(settlement, accounts, plan, a);
        ExternalFits(settlement, a);
      }
    }
  }

  lemma ExternalFits(settlement: nat, a: nat)
    requires a != settlement
    ensures Ascending(Some(settlement), ExternalPlan(settlement, a))
  {
  }

  /** Exactly which mixes can deadlock: those with outgoing bookings and with deposits or withdrawals, when some customer
      account has a lower id than the settlement account. */
  lemma {:induction false} MixDeadlocksIff(mix: Mix, settlement: nat, accounts: iset<nat>)
    requires settlement !in accounts
    ensures (exists steps, tids, rows :: Deadlocks(mix, settlement, accounts, steps, tids, rows))
       <==> mix.outgoing && mix.external && exists a :: a in accounts && a < settlement
  {
    if mix.outgoing && mix.external && exists a :: a in accounts && a < settlement {
      var a :| a in accounts && a < settlement;
      DepositAndBookingCanDeadlock(settlement, a, 0);
      var steps := [Begin(0, ExternalPlan(settlement, a)), Begin(1, BookingPlan(0, a, settlement)),
                    Acquire(0), Acquire(1), Acquire(1)];
      assert IsExternal(settlement, accounts, steps[0].plan, a) && IsOutgoing(settlement, accounts, steps[1].plan, 0, a);
      assert Deadlocks(mix, settlement, accounts, steps, [0, 1], [AccountRow(a), AccountRow(settlement)]);
    } else {
      forall steps: seq<Step>, tids, rows ensures !Deadlocks(mix, settlement, accounts, steps, tids, rows) {
        if RunsMix(mix, settlement, accounts, steps) {
          var low := if mix.external then Some(settlement) else None;
          forall i | 0 <= i < |steps| && steps[i].Begin? ensures Ascending(low, steps[i].plan) {
            PlanFits(mix, settlement, accounts, steps[i].plan);
          }
          NoWaitCycle(low, steps, tids, rows);
        }
      }
    }
  }
}
