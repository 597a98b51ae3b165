/** What every committed state of the payment core satisfies. */
module BankInvariant {
  import opened Wrappers
  import opened Posting
  import opened Lifecycle
  import opened Bank

  // ----- views of the append-only logs -----

  /** The entries that carry a payment order's id, in order of insertion. */
  function EntriesOf(entries: seq<Entry>, id: Uuid): seq<Entry> {
    if entries == [] then []
    else
      var last := entries[|entries| - 1];
      EntriesOf(entries[..|entries| - 1], id) + if last.order == Some(id) then [last] else []
  }

  /** The entries of one ledger transaction. */
  function EntriesWithTx(entries: seq<Entry>, txId: Uuid): seq<Entry> {
    if entries == [] then []
    else
      var last := entries[|entries| - 1];
      EntriesWithTx(entries[..|entries| - 1], txId) + if last.txId == txId then [last] else []
  }

  /** The log up to and including the last entry of an order. */
  function Through(entries: seq<Entry>, id: Uuid): seq<Entry> {
    if entries == [] || entries[|entries| - 1].order == Some(id) then entries
    else Through(entries[..|entries| - 1], id)
  }

  function EventsOf(outbox: seq<Event>, id: Uuid): seq<Event> {
    if outbox == [] then []
    else
      var last := outbox[|outbox| - 1];
      EventsOf(outbox[..|outbox| - 1], id) + if last.order == id then [last] else []
  }

  /** The sum of all cached balances. */
  ghost function TotalBalance(accounts: map<Uuid, Account>): int
    decreases |accounts|
  {
    if |accounts| == 0 then 0
    else accounts[Pick(accounts)].balance + TotalBalance(accounts - {Pick(accounts)})
  }

  ghost function Pick(accounts: map<Uuid, Account>): (id: Uuid)
    requires |accounts| != 0
    ensures id in accounts
  {
    assert accounts.Keys != {};
    var id :| id in accounts.Keys;
    id
  }

  // ----- the invariant -----

  ghost predicate Rooted(s: State) {
    && s.settlement in s.accounts
    && s.accounts.Keys <= s.issued && s.pinned <= s.accounts.Keys
    && NIL !in s.users
    && (forall a :: a in s.accounts ==>
          && (s.accounts[a].isSystem <==> a == s.settlement)
          && (s.accounts[a].owner.Some? ==> s.accounts[a].owner.value in s.users))
  }

  /** Both cached balances are the sum of the entries. */
  ghost predicate CacheOk(s: State) {
    forall a :: a in s.accounts ==> s.accounts[a].balance == s.accounts[a].available == Net(s.entries, a)
  }

  ghost predicate EntriesOk(s: State) {
    forall i :: 0 <= i < |s.entries| ==> s.entries[i].account in s.accounts && LegalEntry(s.entries[i])
  }

  ghost predicate NoOverdraft(s: State) {
    forall a :: a in s.accounts && !s.accounts[a].isSystem ==> s.accounts[a].balance >= 0
  }

  ghost predicate AccountsOk(s: State) {
    Rooted(s) && CacheOk(s) && EntriesOk(s) && NoOverdraft(s) && TotalBalance(s.accounts) == 0
  }

  /** BOOKED, ledger transaction set, and exactly one debit and one credit entry: all or none. */
  ghost predicate LedgerOk(s: State, id: Uuid)
    requires id in s.orders
  {
    var o := s.orders[id];
    if o.status.Booked? then
      && o.ledgerTx.Some?
      && EntriesOf(s.entries, id) == [DebitEntry(s, id, o, o.ledgerTx.value), CreditEntry(s, id, o, o.ledgerTx.value)]
      && EntriesWithTx(s.entries, o.ledgerTx.value) == EntriesOf(s.entries, id)
    else
      o.ledgerTx.None? && EntriesOf(s.entries, id) == []
  }

  /** The balance of an account just after the posting of an order. */
  function BalanceAfter(s: State, id: Uuid, account: Uuid): int {
    Net(Through(s.entries, id), account)
  }

  /** The events that a booked order must have. */
  function ExpectedEvents(s: State, id: Uuid): seq<Event>
    requires id in s.orders
  {
    var o := s.orders[id];
    [DebitEvent(id, o, BalanceAfter(s, id, o.source))]
    + if CreditDue(s, o) then
        var b := o.beneficiary.value;
        [CreditEvent(id, o, b, s.accounts[b].owner.value, BalanceAfter(s, id, b))]
      else []
  }

  ghost predicate EventsOk(s: State, id: Uuid)
    requires id in s.orders
  {
    var events := EventsOf(s.outbox, id);
    match s.orders[id].status
    case Booked => events == ExpectedEvents(s, id)
    case Failed => |events| == 1 && events[0] == FailedEvent(id, s.orders[id], events[0].balance)
    case _ => events == []
  }

  /** A committed PROCESSING order can be freed by stale recovery. */
  predicate Recoverable(o: PaymentOrder) {
    o.status.Processing? ==> o.startedAt.Some?
  }

  ghost predicate OrderOk(s: State, id: Uuid)
    requires id in s.orders
  {
    Grounded(s, s.orders[id]) && LedgerOk(s, id) && EventsOk(s, id)
  }

  /** The logs mention existing orders only, so a new order starts without entries and events. */
  ghost predicate LogsOk(s: State) {
    && (forall i :: 0 <= i < |s.entries| && s.entries[i].order.Some? ==> s.entries[i].order.value in s.orders)
    && (forall i :: 0 <= i < |s.outbox| ==> s.outbox[i].order in s.orders)
  }

  /** Two order ids with the same owner and idempotency key. */
  predicate SameKey(orders: map<Uuid, PaymentOrder>, i: Uuid, j: Uuid) {
    && i in orders && j in orders
    && orders[i].owner == orders[j].owner && orders[i].key == orders[j].key
  }

  ghost predicate UniqueKeys(orders: map<Uuid, PaymentOrder>) {
    forall i, j :: SameKey(orders, i, j) ==> i == j
  }

  ghost predicate OrdersOk(s: State) {
    forall id {:trigger OrderOk(s, id)} :: id in s.orders ==> OrderOk(s, id)
  }

  /** Everything except that PROCESSING orders have a start time, which a confirmation suspends. */
  ghost predicate CoreInv(s: State) {
    AccountsOk(s) && LogsOk(s) && UniqueKeys(s.orders) && OrdersOk(s)
  }

  ghost predicate AllRecoverable(orders: map<Uuid, PaymentOrder>) {
    forall id {:trigger Recoverable(orders[id])} :: id in orders ==> Recoverable(orders[id])
  }

  ghost predicate Inv(s: State) {
    CoreInv(s) && AllRecoverable(s.orders)
  }

  // ----- appending to the logs -----

  lemma NetAppend(es: seq<Entry>, e: Entry, a: Uuid)
    ensures Net(es + [e], a) == Net(es, a) + if e.account == a then Delta(e) else 0
  {
    assert (es + [e])[..|es|] == es;
  }

  lemma NetAppend2(es: seq<Entry>, e: Entry, f: Entry, a: Uuid)
    ensures Net(es + [e, f], a)
         == Net(es, a) + (if e.account == a then Delta(e) else 0) + (if f.account == a then Delta(f) else 0)
  {
    NetAppend(es, e, a);
    NetAppend(es + [e], f, a);
    assert es + [e, f] == es + [e] + [f];
  }

  lemma ViewsAppend(es: seq<Entry>, e: Entry, id: Uuid)
    ensures EntriesOf(es + [e], id) == EntriesOf(es, id) + if e.order == Some(id) then [e] else []
    ensures EntriesWithTx(es + [e], id) == EntriesWithTx(es, id) + if e.txId == id then [e] else []
    ensures Through(es + [e], id) == if e.order == Some(id) then es + [e] else Through(es, id)
  {
    assert (es + [e])[..|es|] == es;
  }

  lemma ViewsAppend2(es: seq<Entry>, e: Entry, f: Entry, id: Uuid)
    ensures e.order != Some(id) && f.order != Some(id) ==>
              EntriesOf(es + [e, f], id) == EntriesOf(es, id) && Through(es + [e, f], id) == Through(es, id)
    ensures e.order == f.order == Some(id) ==>
              EntriesOf(es + [e, f], id) == EntriesOf(es, id) + [e, f] && Through(es + [e, f], id) == es + [e, f]
    ensures e.txId == f.txId == id ==> EntriesWithTx(es + [e, f], id) == EntriesWithTx(es, id) + [e, f]
    ensures e.txId == f.txId != id ==> EntriesWithTx(es + [e, f], id) == EntriesWithTx(es, id)
  {
    ViewsAppend(es, e, id);
    ViewsAppend(es + [e], f, id);
    assert es + [e, f] == es + [e] + [f];
  }

  lemma EventsAppend(outbox: seq<Event>, e: Event, id: Uuid)
    ensures EventsOf(outbox + [e], id) == EventsOf(outbox, id) + if e.order == id then [e] else []
  {
    assert (outbox + [e])[..|outbox|] == outbox;
  }

  lemma EventsAppend2(outbox: seq<Event>, e: Event, f: Event, id: Uuid)
    requires e.order == f.order
    ensures EventsOf(outbox + [e, f], id) == EventsOf(outbox, id) + if e.order == id then [e, f] else []
  {
    EventsAppend(outbox, e, id);
    EventsAppend(outbox + [e], f, id);
    assert outbox + [e, f] == outbox + [e] + [f];
  }

  lemma FreshViews(es: seq<Entry>, id: Uuid)
    ensures !UsesTx(es, id) ==> EntriesWithTx(es, id) == []
    ensures (forall i :: 0 <= i < |es| ==> es[i].order != Some(id)) ==> EntriesOf(es, id) == []
    ensures !HasEntries(es, id) ==> Net(es, id) == 0
  {
    if es != [] {
      var init := es[..|es| - 1];
      FreshViews(init, id);
      if !UsesTx(es, id) {
        assert forall i :: 0 <= i < |init| ==> init[i].txId == es[i].txId;
        assert !UsesTx(init, id);
      }
      if !HasEntries(es, id) {
        assert forall i :: 0 <= i < |init| ==> init[i].account == es[i].account;
        assert !HasEntries(init, id);
      }
    }
  }

  lemma FreshEvents(outbox: seq<Event>, id: Uuid)
    requires forall i :: 0 <= i < |outbox| ==> outbox[i].order != id
    ensures EventsOf(outbox, id) == []
  {
  }

  lemma EntriesOfUse(es: seq<Entry>, id: Uuid, txId: Uuid)
    requires EntriesOf(es, id) != [] && forall e :: e in EntriesOf(es, id) ==> e.txId == txId
    ensures UsesTx(es, txId)
  {
    var last := es[|es| - 1];
    if last.order == Some(id) {
      assert last in EntriesOf(es, id);
    } else {
      EntriesOfUse(es[..|es| - 1], id, txId);
      var i :| 0 <= i < |es| - 1 && es[..|es| - 1][i].txId == txId;
      assert es[i].txId == txId;
    }
  }

  // ----- the total balance -----

  lemma TotalBalanceSplit(accounts: map<Uuid, Account>, id: Uuid)
    requires id in accounts
    ensures TotalBalance(accounts) == accounts[id].balance + TotalBalance(accounts - {id})
    decreases |accounts|
  {
    assert id in accounts.Keys;
    var first := Pick(accounts);
    if first != id {
      var m, n := accounts - {first}, accounts - {id};
      assert m.Keys == accounts.Keys - {first} && n.Keys == accounts.Keys - {id};
      TotalBalanceSplit(m, id);
      TotalBalanceSplit(n, first);
      assert m - {id} == n - {first};
    }
  }

  lemma TotalBalanceSet(accounts: map<Uuid, Account>, id: Uuid, a: Account)
    ensures TotalBalance(accounts[id := a])
         == TotalBalance(accounts) + a.balance - if id in accounts then accounts[id].balance else 0
  {
    TotalBalanceSplit(accounts[id := a], id);
    if id in accounts {
      TotalBalanceSplit(accounts, id);
      assert accounts[id := a] - {id} == accounts - {id};
    } else {
      assert accounts[id := a] - {id} == accounts;
    }
  }

  lemma TotalBalanceAdd(accounts: map<Uuid, Account>, id: Uuid, amount: int)
    requires id in accounts
    ensures TotalBalance(AddToBalance(accounts, id, amount)) == TotalBalance(accounts) + amount
  {
    var a := accounts[id];
    var b := a.(balance := a.balance + amount, available := a.available + amount);
    var after := accounts[id := b];
    assert AddToBalance(accounts, id, amount) == after;
    TotalBalanceSplit(accounts, id);
    TotalBalanceSplit(after, id);
    assert after - {id} == accounts - {id};
  }
}
