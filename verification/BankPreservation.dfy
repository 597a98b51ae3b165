/** Every step keeps the invariant, and so does every run. */
module BankPreservation {
  import opened Wrappers
  import opened Posting
  import opened Lifecycle
  import opened Bank
  import opened BankInvariant

  // ----- postings -----

  /** Two legal, opposite entries on two existing accounts that do not overdraw a customer. */
  ghost predicate GoodPosting(s: State, e: Entry, f: Entry) {
    && LegalEntry(e) && LegalEntry(f) && Delta(e) + Delta(f) == 0
    && e.account in s.accounts && f.account in s.accounts && e.account != f.account
    && (!s.accounts[e.account].isSystem ==> s.accounts[e.account].balance + Delta(e) >= 0)
    && (!s.accounts[f.account].isSystem ==> s.accounts[f.account].balance + Delta(f) >= 0)
  }

  lemma PostedAccount(s: State, e: Entry, f: Entry, a: Uuid)
    requires e.account != f.account && a in s.accounts
    ensures var t := Post(s, e, f);
      && a in t.accounts
      && t.accounts[a].owner == s.accounts[a].owner && t.accounts[a].isSystem == s.accounts[a].isSystem
      && t.accounts[a].balance - s.accounts[a].balance == t.accounts[a].available - s.accounts[a].available
      && t.accounts[a].balance - s.accounts[a].balance == Net(t.entries, a) - Net(s.entries, a)
      && t.accounts[a].balance - s.accounts[a].balance
         == (if a == e.account then Delta(e) else if a == f.account then Delta(f) else 0)
  {
    NetAppend2(s.entries, e, f, a);
  }

  lemma PostKeepsTotal(s: State, e: Entry, f: Entry)
    requires e.account in s.accounts && f.account in s.accounts && Delta(e) + Delta(f) == 0
    ensures TotalBalance(Post(s, e, f).accounts) == TotalBalance(s.accounts)
  {
    TotalBalanceAdd(s.accounts, e.account, Delta(e));
    TotalBalanceAdd(AddToBalance(s.accounts, e.account, Delta(e)), f.account, Delta(f));
  }

  lemma PostKeepsEntries(s: State, e: Entry, f: Entry)
    requires EntriesOk(s) && GoodPosting(s, e, f)
    ensures EntriesOk(Post(s, e, f))
  {
    var t := Post(s, e, f);
    assert t.accounts.Keys == s.accounts.Keys;
    forall i | 0 <= i < |t.entries| ensures t.entries[i].account in t.accounts && LegalEntry(t.entries[i]) {
      assert i < |s.entries| ==> t.entries[i] == s.entries[i];
    }
  }

  lemma PostKeepsAccounts(s: State, e: Entry, f: Entry)
    requires AccountsOk(s) && GoodPosting(s, e, f)
    ensures AccountsOk(Post(s, e, f))
  {
    var t := Post(s, e, f);
    assert t.accounts.Keys == s.accounts.Keys;
    assert TotalBalance(t.accounts) == 0 by {
      PostKeepsTotal(s, e, f);
    }
    PostKeepsEntries(s, e, f);
    forall a | a in t.accounts
      ensures t.accounts[a].owner == s.accounts[a].owner && t.accounts[a].isSystem == s.accounts[a].isSystem
      ensures t.accounts[a].balance == t.accounts[a].available == Net(t.entries, a)
      ensures !t.accounts[a].isSystem ==> t.accounts[a].balance >= 0
    {
      PostedAccount(s, e, f, a);
    }
  }

  /** The identity of every account, which is all that orders depend on, is untouched. */
  ghost predicate SameIdentities(s: State, t: State) {
    && s.settlement == t.settlement && s.users <= t.users
    && forall a :: a in s.accounts ==>
         a in t.accounts && t.accounts[a].owner == s.accounts[a].owner && t.accounts[a].isSystem == s.accounts[a].isSystem
  }

  /** An order keeps its standing when the row and its part of the two logs are unchanged. */
  lemma OrderFrame(s: State, t: State, id: Uuid)
    requires id in s.orders && id in t.orders && s.orders[id] == t.orders[id]
    requires OrderOk(s, id) && SameIdentities(s, t)
    requires EntriesOf(t.entries, id) == EntriesOf(s.entries, id)
    requires EventsOf(t.outbox, id) == EventsOf(s.outbox, id)
    requires s.orders[id].status.Booked? ==> Through(t.entries, id) == Through(s.entries, id)
    requires forall txId :: UsesTx(s.entries, txId) ==> EntriesWithTx(t.entries, txId) == EntriesWithTx(s.entries, txId)
    ensures OrderOk(t, id)
  {
    var o := s.orders[id];
    if o.status.Booked? {
      EntriesOfUse(s.entries, id, o.ledgerTx.value);
    }
  }

  lemma PostSameIdentities(s: State, e: Entry, f: Entry)
    requires e.account != f.account
    ensures SameIdentities(s, Post(s, e, f))
  {
    forall a | a in s.accounts
      ensures a in Post(s, e, f).accounts
      ensures Post(s, e, f).accounts[a].owner == s.accounts[a].owner
      ensures Post(s, e, f).accounts[a].isSystem == s.accounts[a].isSystem
    {
      PostedAccount(s, e, f, a);
    }
  }

  /** A posting that belongs to no order, or to another one, leaves an order alone. */
  lemma PostFrame(s: State, e: Entry, f: Entry, t: State, id: Uuid)
    requires id in s.orders && id in t.orders && s.orders[id] == t.orders[id] && OrderOk(s, id) && SameIdentities(s, t)
    requires t.entries == s.entries + [e, f] && e.txId == f.txId && !UsesTx(s.entries, e.txId)
    requires e.order == f.order != Some(id)
    requires EventsOf(t.outbox, id) == EventsOf(s.outbox, id)
    ensures OrderOk(t, id)
  {
    ViewsAppend2(s.entries, e, f, id);
    forall txId | UsesTx(s.entries, txId) ensures EntriesWithTx(t.entries, txId) == EntriesWithTx(s.entries, txId) {
      ViewsAppend2(s.entries, e, f, txId);
    }
    OrderFrame(s, t, id);
  }

  lemma PlainPostKeeps(s: State, e: Entry, f: Entry)
    requires Inv(s) && GoodPosting(s, e, f)
    requires e.txId == f.txId && !UsesTx(s.entries, e.txId) && e.order == f.order == None
    ensures Inv(Post(s, e, f))
  {
    var t := Post(s, e, f);
    PostKeepsAccounts(s, e, f);
    PostSameIdentities(s, e, f);
    forall id | id in t.orders ensures OrderOk(t, id) {
      assert OrderOk(s, id);
      PostFrame(s, e, f, t, id);
    }
  }

  // ----- settling an order -----

  lemma BookingGood(s: State, id: Uuid, txId: Uuid)
    requires CoreInv(s) && id in s.orders && BookingError(s, s.orders[id]).None?
    ensures GoodPosting(s, DebitEntry(s, id, s.orders[id], txId), CreditEntry(s, id, s.orders[id], txId))
  {
  }

  /** In a good state the event of an owned account can always be built. */
  lemma EventsDeliverable(s: State, id: Uuid, txId: Uuid)
    requires CoreInv(s) && id in s.orders && BookingError(s, s.orders[id]).None?
    ensures BookedEvents(BookedState(s, id, s.orders[id], txId), id, s.orders[id]).Some?
  {
    BookingGood(s, id, txId);
  }

  /** What a booking writes, in terms of the state before it. */
  lemma BookedFacts(s: State, id: Uuid, txId: Uuid, t: State)
    requires CoreInv(s) && id in s.orders
    requires BookingError(s, s.orders[id]).None? && Settle(s, id, txId) == Some(t)
    ensures var o := s.orders[id];
      && var e, f := DebitEntry(s, id, o, txId), CreditEntry(s, id, o, txId);
      && GoodPosting(s, e, f)
      && t.settlement == s.settlement && t.users == s.users && t.issued == s.issued && t.pinned == s.pinned
      && t.accounts == Post(s, e, f).accounts && t.entries == s.entries + [e, f]
      && t.orders == s.orders[id := BookRow(o, txId)]
      && t.orders[id].status.Booked? && t.orders[id].ledgerTx == Some(txId)
      && t.outbox[..|s.outbox|] == s.outbox
      && t.outbox[|s.outbox|..] == [DebitEvent(id, o, t.accounts[o.source].balance)]
           + if CreditDue(t, o) then
               [CreditEvent(id, o, o.beneficiary.value, t.accounts[o.beneficiary.value].owner.value,
                            t.accounts[o.beneficiary.value].balance)]
             else []
  {
    assert OrderOk(s, id);
    BookingGood(s, id, txId);
  }

  lemma AppendEvents(outbox: seq<Event>, events: seq<Event>, id: Uuid)
    requires 1 <= |events| <= 2 && forall i :: 0 <= i < |events| ==> events[i].order == events[0].order
    ensures EventsOf(outbox + events, id) == EventsOf(outbox, id) + if events[0].order == id then events else []
  {
    if |events| == 1 {
      EventsAppend(outbox, events[0], id);
      assert events == [events[0]];
    } else {
      EventsAppend2(outbox, events[0], events[1], id);
      assert events == [events[0], events[1]];
    }
  }

  lemma BookKeepsAccounts(s: State, id: Uuid, txId: Uuid, t: State)
    requires CoreInv(s) && id in s.orders
    requires BookingError(s, s.orders[id]).None? && Settle(s, id, txId) == Some(t)
    ensures AccountsOk(t) && SameIdentities(s, t) && UniqueKeys(t.orders)
  {
    var e, f := DebitEntry(s, id, s.orders[id], txId), CreditEntry(s, id, s.orders[id], txId);
    BookedFacts(s, id, txId, t);
    PostKeepsAccounts(s, e, f);
    PostSameIdentities(s, e, f);
    AccountsFrame(s, Post(s, e, f), t);
    SameKeysUnique(s.orders, t.orders);
  }

  lemma AccountsFrame(s: State, u: State, t: State)
    requires AccountsOk(u) && SameIdentities(s, u)
    requires t == u.(orders := t.orders, outbox := t.outbox)
    ensures AccountsOk(t) && SameIdentities(s, t)
  {
  }

  lemma BookKeepsLogs(s: State, id: Uuid, txId: Uuid, t: State)
    requires CoreInv(s) && id in s.orders
    requires BookingError(s, s.orders[id]).None? && Settle(s, id, txId) == Some(t)
    ensures LogsOk(t)
    ensures forall other :: EventsOf(t.outbox, other)
                         == EventsOf(s.outbox, other) + if other == id then t.outbox[|s.outbox|..] else []
  {
    BookedFacts(s, id, txId, t);
    var events := t.outbox[|s.outbox|..];
    assert t.outbox == s.outbox + events;
    forall other ensures EventsOf(t.outbox, other) == EventsOf(s.outbox, other) + if other == id then events else [] {
      AppendEvents(s.outbox, events, other);
    }
  }

  lemma BookKeeps(s: State, id: Uuid, txId: Uuid, t: State)
    requires CoreInv(s) && id in s.orders && !UsesTx(s.entries, txId)
    requires BookingError(s, s.orders[id]).None? && Settle(s, id, txId) == Some(t)
    ensures CoreInv(t)
  {
    BookKeepsAccounts(s, id, txId, t);
    BookKeepsLogs(s, id, txId, t);
    forall other | other in t.orders ensures OrderOk(t, other) {
      if other != id {
        BookKeepsOther(s, id, txId, t, other);
      } else {
        assert OrderOk(s, id);
        BookedLedgerOk(s, id, txId, t);
        BookedEventsOk(s, id, txId, t);
        BookedFacts(s, id, txId, t);
      }
    }
  }

  lemma BookKeepsOther(s: State, id: Uuid, txId: Uuid, t: State, other: Uuid)
    requires CoreInv(s) && id in s.orders && !UsesTx(s.entries, txId) && other in s.orders && other != id
    requires BookingError(s, s.orders[id]).None? && Settle(s, id, txId) == Some(t)
    requires SameIdentities(s, t) && EventsOf(t.outbox, other) == EventsOf(s.outbox, other)
    ensures OrderOk(t, other)
  {
    assert OrderOk(s, other);
    PostFrame(s, DebitEntry(s, id, s.orders[id], txId), CreditEntry(s, id, s.orders[id], txId), t, other);
  }

  lemma SameKeysUnique(orders: map<Uuid, PaymentOrder>, after: map<Uuid, PaymentOrder>)
    requires UniqueKeys(orders) && after.Keys == orders.Keys
    requires forall id :: id in orders ==> after[id].owner == orders[id].owner && after[id].key == orders[id].key
    ensures UniqueKeys(after)
  {
    forall i, j | SameKey(after, i, j) ensures i == j {
      assert SameKey(orders, i, j);
    }
  }

  /** The booked order itself: its two entries. */
  lemma BookedLedgerOk(s: State, id: Uuid, txId: Uuid, t: State)
    requires CoreInv(s) && id in s.orders && !UsesTx(s.entries, txId)
    requires BookingError(s, s.orders[id]).None? && Settle(s, id, txId) == Some(t)
    ensures LedgerOk(t, id) && Through(t.entries, id) == t.entries
  {
    var e, f := DebitEntry(s, id, s.orders[id], txId), CreditEntry(s, id, s.orders[id], txId);
    assert OrderOk(s, id);
    BookedFacts(s, id, txId, t);
    ViewsAppend2(s.entries, e, f, id);
    ViewsAppend2(s.entries, e, f, txId);
    FreshViews(s.entries, txId);
  }

  /** The booked order itself: its events, and the balances these carry. */
  lemma BookedEventsOk(s: State, id: Uuid, txId: Uuid, t: State)
    requires CoreInv(s) && id in s.orders
    requires BookingError(s, s.orders[id]).None? && Settle(s, id, txId) == Some(t)
    requires CacheOk(t) && Through(t.entries, id) == t.entries
    requires EventsOf(t.outbox, id) == EventsOf(s.outbox, id) + t.outbox[|s.outbox|..]
    ensures EventsOk(t, id)
  {
    var o := s.orders[id];
    assert OrderOk(s, id);
    BookedFacts(s, id, txId, t);
    assert t.accounts[o.source].balance == BalanceAfter(t, id, o.source);
    if CreditDue(t, o) {
      assert t.accounts[o.beneficiary.value].balance == BalanceAfter(t, id, o.beneficiary.value);
    }
  }

  lemma FailKeeps(s: State, id: Uuid, txId: Uuid, t: State)
    requires CoreInv(s) && id in s.orders
    requires BookingError(s, s.orders[id]).Some? && Settle(s, id, txId) == Some(t)
    ensures CoreInv(t)
  {
    var e := FailedEvent(id, s.orders[id], s.accounts[s.orders[id].source].balance);
    assert UniqueKeys(t.orders) by {
      SameKeysUnique(s.orders, t.orders);
    }
    forall other | other in t.orders ensures OrderOk(t, other) {
      EventsAppend(s.outbox, e, other);
      assert OrderOk(s, other);
      if other != id {
        OrderFrame(s, t, other);
      }
    }
  }

  lemma SettleKeeps(s: State, id: Uuid, txId: Uuid)
    requires CoreInv(s) && id in s.orders && !UsesTx(s.entries, txId)
    ensures Settle(s, id, txId).Some? ==> CoreInv(Settle(s, id, txId).value)
  {
    match Settle(s, id, txId)
    case None =>
    case Some(t) =>
      if BookingError(s, s.orders[id]).None? {
        BookKeeps(s, id, txId, t);
      } else {
        FailKeeps(s, id, txId, t);
      }
  }

  // ----- rows without ledger effect -----

  /** Rewriting order rows between states that have neither entries nor events keeps the core invariant. */
  predicate QuietChange(o: PaymentOrder, p: PaymentOrder) {
    || o == p
    || (&& p.owner == o.owner && p.source == o.source && p.beneficiary == o.beneficiary && p.amount == o.amount && p.key == o.key
        && o.ledgerTx.None? && p.ledgerTx.None?
        && !o.status.Booked? && !o.status.Failed? && !p.status.Booked? && !p.status.Failed?)
  }

  lemma QuietKeeps(s: State, orders: map<Uuid, PaymentOrder>)
    requires CoreInv(s) && orders.Keys == s.orders.Keys
    requires forall id :: id in s.orders ==> QuietChange(s.orders[id], orders[id])
    ensures CoreInv(s.(orders := orders))
  {
    var t := s.(orders := orders);
    SameKeysUnique(s.orders, orders);
    forall id | id in t.orders ensures OrderOk(t, id) {
      assert OrderOk(s, id);
      assert QuietChange(s.orders[id], orders[id]);
    }
  }

  lemma InsertKeeps(s: State, id: Uuid, o: PaymentOrder)
    requires Inv(s) && Insertable(s, id, o)
    ensures Inv(s.(orders := s.orders[id := o]))
  {
    var t := s.(orders := s.orders[id := o]);
    forall i, j | SameKey(t.orders, i, j) ensures i == j {
      assert i != id && j != id ==> SameKey(s.orders, i, j);
    }
    forall other | other in t.orders ensures OrderOk(t, other) && Recoverable(t.orders[other]) {
      if other == id {
        FreshViews(s.entries, id);
        FreshEvents(s.outbox, id);
      } else {
        assert OrderOk(s, other) && Recoverable(s.orders[other]);
        OrderFrame(s, t, other);
      }
    }
  }

  // ----- accounts -----

  /** Orders do not notice changes of the account table that keep identities. */
  lemma OrdersKeep(s: State, t: State)
    requires Inv(s) && SameIdentities(s, t)
    requires t.orders == s.orders && t.entries == s.entries && t.outbox == s.outbox
    requires AccountsOk(t)
    ensures Inv(t)
  {
    forall id | id in t.orders ensures OrderOk(t, id) {
      assert OrderOk(s, id);
      OrderFrame(s, t, id);
    }
  }

  lemma AddAccountKeeps(s: State, id: Uuid, owner: Uuid, iban: string)
    requires Inv(s) && owner in s.users && id !in s.issued
    ensures Inv(AddAccount(s, id, owner, iban))
  {
    AddedAccountOk(s, id, owner, iban);
    OrdersKeep(s, AddAccount(s, id, owner, iban));
  }

  lemma AddedAccountOk(s: State, id: Uuid, owner: Uuid, iban: string)
    requires AccountsOk(s) && owner in s.users && id !in s.issued
    ensures AccountsOk(AddAccount(s, id, owner, iban)) && SameIdentities(s, AddAccount(s, id, owner, iban))
  {
    var t := AddAccount(s, id, owner, iban);
    assert !HasEntries(s.entries, id);
    FreshViews(s.entries, id);
    assert TotalBalance(t.accounts) == 0 by {
      TotalBalanceSet(s.accounts, id, t.accounts[id]);
    }
  }

  lemma AddUserKeeps(s: State, user: Uuid)
    requires Inv(s) && user != NIL
    ensures Inv(s.(users := s.users + {user}))
  {
    OrdersKeep(s, s.(users := s.users + {user}));
  }

  lemma DeleteAccountKeeps(s: State, account: Uuid)
    requires Inv(s) && account in s.accounts && !s.accounts[account].isSystem && s.accounts[account].balance == 0
    requires !HasEntries(s.entries, account) && Unreferenced(s, account) && account !in s.pinned
    ensures Inv(s.(accounts := s.accounts - {account}))
  {
    var t := s.(accounts := s.accounts - {account});
    assert AccountsOk(t) by {
      TotalBalanceSplit(s.accounts, account);
    }
    forall id | id in t.orders ensures OrderOk(t, id) {
      assert OrderOk(s, id);
    }
  }

  lemma PinKeeps(s: State, referenced: set<Uuid>)
    requires Inv(s) && referenced <= s.accounts.Keys
    ensures Inv(s.(pinned := s.pinned + referenced))
  {
    OrdersKeep(s, s.(pinned := s.pinned + referenced));
  }

  lemma SetStatusKeeps(s: State, account: Uuid, status: AccountStatus)
    requires Inv(s) && account in s.accounts
    ensures Inv(s.(accounts := s.accounts[account := s.accounts[account].(status := status)]))
  {
    var t := s.(accounts := s.accounts[account := s.accounts[account].(status := status)]);
    SameBalancesKeep(s, t);
    assert TotalBalance(t.accounts) == 0 by {
      TotalBalanceSet(s.accounts, account, t.accounts[account]);
    }
    OrdersKeep(s, t);
  }

  /** What the invariant says of single accounts does not depend on their status. */
  lemma SameBalancesKeep(s: State, t: State)
    requires AccountsOk(s) && t.accounts.Keys == s.accounts.Keys && t == s.(accounts := t.accounts)
    requires forall a :: a in s.accounts ==> t.accounts[a] == s.accounts[a].(status := t.accounts[a].status)
    ensures Rooted(t) && CacheOk(t) && EntriesOk(t) && NoOverdraft(t)
  {
  }

  // ----- steps and runs -----

  lemma MoneyStepKeeps(s: State, step: Step)
    requires Inv(s) && (step.Deposit? || step.Withdraw? || step.Transfer?)
    ensures Inv(Apply(s, step))
  {
    match step
    case Deposit(account, amount, txId) =>
      if DepositError(s, account).None? && amount > 0 && !UsesTx(s.entries, txId) {
        PlainPostKeeps(s, Entry(account, 0, amount, txId, None), Entry(s.settlement, amount, 0, txId, None));
      }
    case Withdraw(account, amount, txId) =>
      if WithdrawError(s, account, amount).None? && amount > 0 && !UsesTx(s.entries, txId) {
        PlainPostKeeps(s, Entry(account, amount, 0, txId, None), Entry(s.settlement, 0, amount, txId, None));
      }
    case Transfer(owner, from, to, amount, txId) =>
      if TransferError(s, owner, from, to, amount).None? && !UsesTx(s.entries, txId) {
        PlainPostKeeps(s, Entry(from, amount, 0, txId, None), Entry(to, 0, amount, txId, None));
      }
  }

  lemma FundedCustomerKeeps(s: State, user: Uuid, account: Uuid, iban: string, amount: int, txId: Uuid)
    requires Inv(s)
    ensures Inv(Apply(s, CreateFundedCustomer(user, account, iban, amount, txId)))
  {
    if Apply(s, CreateFundedCustomer(user, account, iban, amount, txId)) != s {
      var s0 := s.(users := s.users + {user});
      AddUserKeeps(s, user);
      AddAccountKeeps(s0, account, user, iban);
      var s1 := AddAccount(s0, account, user, iban);
      var deposit := Deposit(account, amount, txId);
      assert Apply(s, CreateFundedCustomer(user, account, iban, amount, txId)) == Apply(s1, deposit);
      MoneyStepKeeps(s1, deposit);
    }
  }

  lemma AccountStepKeeps(s: State, step: Step)
    requires Inv(s)
    requires step.CreateUser? || step.CreateAccount? || step.DeleteAccount? || step.Pin? || step.SetAccountStatus?
    ensures Inv(Apply(s, step))
  {
    if Apply(s, step) != s {
      match step
      case CreateUser(user) => AddUserKeeps(s, user);
      case CreateAccount(account, owner, iban) => AddAccountKeeps(s, account, owner, iban);
      case DeleteAccount(account, owner) => DeleteAccountKeeps(s, account);
      case Pin(referenced) => PinKeeps(s, referenced);
      case SetAccountStatus(account, status) => SetStatusKeeps(s, account, status);
    }
  }

  lemma SettledRecoverable(s: State, id: Uuid, txId: Uuid)
    requires id in s.orders && Settle(s, id, txId).Some?
    requires forall other {:trigger Recoverable(s.orders[other])} ::
               other in s.orders && other != id ==> Recoverable(s.orders[other])
    requires CoreInv(s)
    ensures AllRecoverable(Settle(s, id, txId).value.orders)
  {
    var t := Settle(s, id, txId).value;
    assert OrderOk(s, id);
    forall other | other in t.orders ensures Recoverable(t.orders[other]) {
      assert other != id ==> t.orders[other] == s.orders[other] && Recoverable(s.orders[other]);
    }
  }

  lemma ConfirmKeeps(s: State, owner: Uuid, id: Uuid, acceptMismatch: bool, now: int, txId: Uuid)
    requires Inv(s)
    ensures Inv(Apply(s, Confirm(owner, id, acceptMismatch, now, txId)))
  {
    if ConfirmReady(s, owner, id, acceptMismatch) && !UsesTx(s.entries, txId) {
      var o := s.orders[id];
      assert OrderOk(s, id);
      var s1 := s.(orders := s.orders[id := ConfirmRow(o, ConfirmTarget(o, now), !o.vop.Match?)]);
      QuietKeeps(s, s1.orders);
      forall other | other in s1.orders && other != id ensures Recoverable(s1.orders[other]) {
        assert Recoverable(s.orders[other]);
      }
      if ConfirmTarget(o, now).Processing? && Settle(s1, id, txId).Some? {
        SettleKeeps(s1, id, txId);
        SettledRecoverable(s1, id, txId);
      }
    }
  }

  lemma SweepKeeps(s: State, step: Step)
    requires Inv(s) && (step.Cancel? || step.ClaimDue? || step.RecoverStale?)
    ensures Inv(Apply(s, step))
  {
    var orders := Apply(s, step).orders;
    SweepOnlyOrders(s, step);
    forall id | id in s.orders ensures QuietChange(s.orders[id], orders[id]) && Recoverable(orders[id]) {
      assert OrderOk(s, id) && Recoverable(s.orders[id]);
      SweepRow(s, step, id);
    }
    QuietKeeps(s, orders);
  }

  lemma SweepOnlyOrders(s: State, step: Step)
    requires step.Cancel? || step.ClaimDue? || step.RecoverStale?
    ensures Apply(s, step) == s.(orders := Apply(s, step).orders) && Apply(s, step).orders.Keys == s.orders.Keys
  {
  }

  lemma SweepRow(s: State, step: Step, id: Uuid)
    requires id in s.orders && (step.Cancel? || step.ClaimDue? || step.RecoverStale?)
    requires Recoverable(s.orders[id]) && (s.orders[id].status.Booked? || s.orders[id].ledgerTx.None?)
    ensures id in Apply(s, step).orders
    ensures QuietChange(s.orders[id], Apply(s, step).orders[id]) && Recoverable(Apply(s, step).orders[id])
  {
  }

  lemma ProcessKeeps(s: State, id: Uuid, txId: Uuid)
    requires Inv(s)
    ensures Inv(Apply(s, Process(id, txId)))
  {
    if Apply(s, Process(id, txId)) != s {
      SettleKeeps(s, id, txId);
      SettledRecoverable(s, id, txId);
    }
  }

  lemma InsertStepKeeps(s: State, id: Uuid, o: PaymentOrder)
    requires Inv(s)
    ensures Inv(Apply(s, InsertOrder(id, o)))
  {
    if Insertable(s, id, o) {
      InsertKeeps(s, id, o);
    }
  }

  lemma StepKeeps(s: State, step: Step)
    requires Inv(s)
    ensures Inv(Apply(s, step))
  {
    if step.Deposit? || step.Withdraw? || step.Transfer? {
      MoneyStepKeeps(s, step);
    } else if step.Cancel? || step.ClaimDue? || step.RecoverStale? {
      SweepKeeps(s, step);
    } else if step.Confirm? || step.InsertOrder? || step.Process? {
      OrderStepKeeps(s, step);
    } else if step.CreateFundedCustomer? {
      FundedCustomerKeeps(s, step.user, step.account, step.iban, step.amount, step.txId);
    } else {
      AccountStepKeeps(s, step);
    }
  }

  lemma OrderStepKeeps(s: State, step: Step)
    requires Inv(s) && (step.Confirm? || step.InsertOrder? || step.Process?)
    ensures Inv(Apply(s, step))
  {
    match step
    case Confirm(owner, id, acceptMismatch, now, txId) => ConfirmKeeps(s, owner, id, acceptMismatch, now, txId);
    case InsertOrder(id, order) => InsertStepKeeps(s, id, order);
    case Process(id, txId) => ProcessKeeps(s, id, txId);
  }

  lemma InitialInv(settlement: Uuid)
    ensures Inv(Initial(settlement))
  {
    var accounts := Initial(settlement).accounts;
    TotalBalanceSplit(accounts, settlement);
    assert accounts - {settlement} == map[];
  }

  lemma {:induction false} RunKeeps(s: State, steps: seq<Step>)
    requires Inv(s)
    ensures Inv(Run(s, steps))
    decreases |steps|
  {
    if steps == [] {
    } else {
      StepKeeps(s, steps[0]);
      RunKeeps(Apply(s, steps[0]), steps[1..]);
    }
  }
}
