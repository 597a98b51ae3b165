/** What the transactions of the payment core do, said in terms of the columns of the rows alone. */
module Statements {
  import opened Wrappers
  import opened Posting
  import opened Lifecycle
  import opened Bank
  import opened BankInvariant
  import opened BankPreservation
  import opened BankRuns

  /** A confirmation is accepted from the owner of a waiting order whose payee matched or whose mismatch is accepted. A
      payment for later is scheduled, and nothing else changes; every other payment is booked or fails at once. */
  lemma {:induction false} ConfirmMeans(s: State, owner: Uuid, id: Uuid, acceptMismatch: bool, now: int, txId: Uuid)
    requires CoreInv(s) && !UsesTx(s.entries, txId)
    ensures var t := Apply(s, Confirm(owner, id, acceptMismatch, now, txId));
      if id in s.orders && s.orders[id].owner == owner && s.orders[id].status == AwaitingConfirmation
         && (s.orders[id].vop == Match || acceptMismatch)
      then
        var o := s.orders[id];
        if o.schedule == AtTime && now < o.requestedAt then
          t == s.(orders := s.orders[id := o.(status := Scheduled, vopOverridden := o.vop != Match)])
        else
          && id in t.orders && (t.orders[id].status == Booked || t.orders[id].status == Failed)
          && t.orders[id].vopOverridden == (o.vop != Match)
      else t == s
  {
    if ConfirmReady(s, owner, id, acceptMismatch) {
      var o := s.orders[id];
      if ConfirmTarget(o, now).Processing? {
        ConfirmDecides(s, owner, id, acceptMismatch, now, txId);
        var s1 := s.(orders := s.orders[id := ConfirmRow(o, Processing, !o.vop.Match?)]);
        OverrideIsKept(s1, id, txId);
      }
    }
  }

  lemma OverrideIsKept(s: State, id: Uuid, txId: Uuid)
    requires id in s.orders && Settle(s, id, txId).Some?
    ensures id in Settle(s, id, txId).value.orders
    ensures Settle(s, id, txId).value.orders[id].vopOverridden == s.orders[id].vopOverridden
  {
  }

  /** A claim takes the scheduled orders of the batch whose time has come, starts them and counts the attempt. */
  lemma ClaimMeans(s: State, batch: set<Uuid>, now: int, id: Uuid)
    requires id in s.orders
    ensures var o, t := s.orders[id], Apply(s, ClaimDue(batch, now));
      && t == s.(orders := t.orders) && t.orders.Keys == s.orders.Keys
      && t.orders[id] == if id in batch && o.status == Scheduled && o.requestedAt <= now
                         then o.(status := Processing, startedAt := Some(now), attempts := o.attempts + 1) else o
  {
    assert Apply(s, ClaimDue(batch, now)).orders.Keys == s.orders.Keys;
  }

  /** Stale recovery reschedules the orders whose claim is older than the limit, and forgets when they were started. */
  lemma RecoveryMeans(s: State, now: int, seconds: int, id: Uuid)
    requires id in s.orders
    ensures var o, t := s.orders[id], Apply(s, RecoverStale(now, seconds));
      && t == s.(orders := t.orders) && t.orders.Keys == s.orders.Keys
      && t.orders[id] == if o.status == Processing && o.ledgerTx == None && o.startedAt.Some? && o.startedAt.value + seconds < now
                         then o.(status := Scheduled, startedAt := None) else o
  {
    assert Apply(s, RecoverStale(now, seconds)).orders.Keys == s.orders.Keys;
  }

  /** The owner cancels a draft, a waiting or a scheduled order, and nothing else. */
  lemma CancelMeans(s: State, owner: Uuid, id: Uuid)
    ensures Apply(s, Cancel(owner, id))
         == if id in s.orders && s.orders[id].owner == owner
               && (s.orders[id].status == Draft || s.orders[id].status == AwaitingConfirmation || s.orders[id].status == Scheduled)
            then s.(orders := s.orders[id := s.orders[id].(status := Cancelled)]) else s
  {
  }

  /** An order may be inserted under a new id and a free key: for a positive amount, by a user who owns the customer account
      that it debits, to another customer account if to one of this bank; waiting for its confirmation, or scheduled when a
      standing order makes it. */
  lemma {:induction false} InsertMeans(s: State, id: Uuid, o: PaymentOrder)
    ensures var t := Apply(s, InsertOrder(id, o));
      if && id !in s.orders && (forall other :: other in s.orders && s.orders[other].key == o.key ==> s.orders[other].owner != o.owner)
         && o.amount > 0 && o.owner in s.users
         && o.source in s.accounts && s.accounts[o.source].owner == Some(o.owner) && !s.accounts[o.source].isSystem
         && (o.beneficiary.Some? ==>
               && o.beneficiary.value in s.accounts && o.beneficiary.value != o.source
               && !s.accounts[o.beneficiary.value].isSystem)
         && o.status == (if o.schedule == Standing then Scheduled else AwaitingConfirmation)
         && o.ledgerTx == None && o.startedAt == None
      then t == s.(orders := s.orders[id := o]) else t == s
  {
  }

  /** A new account has an id and an IBAN of its own, belongs to a user, and is active, in EUR and empty. */
  lemma {:induction false} AccountMeans(s: State, account: Uuid, owner: Uuid, iban: string)
    ensures var t := Apply(s, CreateAccount(account, owner, iban));
      if owner in s.users && account !in s.issued && (forall a :: a in s.accounts ==> s.accounts[a].iban != iban)
      then
        t == s.(accounts := s.accounts[account := Account(Some(owner), false, iban, "EUR", Active, 0, 0)], issued := s.issued + {account})
      else t == s
  {
  }

  /** A funded customer is a new user with one account, and an opening credit that the settlement account pays: all of it, or
      nothing. */
  lemma {:induction false} FundedCustomerMeans(s: State, user: Uuid, account: Uuid, iban: string, amount: int, txId: Uuid)
    requires Inv(s)
    ensures var t := Apply(s, CreateFundedCustomer(user, account, iban, amount, txId));
      t != s ==>
        && user != 0 && user !in s.users && account !in s.issued && amount > 0 && s.settlement in s.accounts
        && t.users == s.users + {user} && t.issued == s.issued + {account} && t.orders == s.orders && t.outbox == s.outbox
        && t.entries == s.entries + [Entry(account, 0, amount, txId, None), Entry(s.settlement, amount, 0, txId, None)]
        && t.accounts.Keys == s.accounts.Keys + {account}
        && t.accounts[account] == Account(Some(user), false, iban, "EUR", Active, amount, amount)
        && t.accounts[s.settlement].balance == s.accounts[s.settlement].balance - amount
        && forall a :: a in s.accounts && a != s.settlement ==> t.accounts[a] == s.accounts[a]
  {
  }

  /** Only the owner's own, empty account is deleted, with no entry, no order and no standing order that refers to it. */
  lemma {:induction false} DeletionMeans(s: State, account: Uuid, owner: Uuid)
    ensures var t := Apply(s, DeleteAccount(account, owner));
      if && account in s.accounts && s.accounts[account].owner == Some(owner) && !s.accounts[account].isSystem
         && s.accounts[account].balance == 0 && (forall i :: 0 <= i < |s.entries| ==> s.entries[i].account != account)
         && (forall id :: id in s.orders ==> s.orders[id].source != account && s.orders[id].beneficiary != Some(account))
         && account !in s.pinned
      then t == s.(accounts := s.accounts - {account}) else t == s
  {
  }

  /** A statement moves a row with the first status to one with the second. */
  ghost predicate SomeStatementMoves(from: Status, to: Status) {
    exists o: PaymentOrder, now: int, seconds: int, txId: Uuid, code: string :: Moves(o, now, seconds, txId, code, from, to)
  }

  predicate Moves(o: PaymentOrder, now: int, seconds: int, txId: Uuid, code: string, from: Status, to: Status) {
    && o.status == from && from != to
    && (|| to == CancelRow(o).status
        || to == ConfirmRow(o, Scheduled, false).status
        || to == ConfirmRow(o, Processing, false).status
        || to == ClaimRow(o, now).status
        || to == MarkProcessingRow(o, now).status
        || to == RecoverRow(o, now, seconds).status
        || to == BookRow(o, txId).status
        || to == FailRow(o, code).status)
  }

  /** The transition table allows exactly the moves that some guarded UPDATE makes: none is missing and none is unused. */
  lemma {:induction false} TableIsExact(from: Status, to: Status)
    ensures Allowed(from, to) <==> SomeStatementMoves(from, to)
  {
    if Allowed(from, to) {
      var o := PaymentOrder(1, 1, None, "", "", None, 1, Sepa, AtTime, None, None, "", 0, Match, false, from, None, None, 0,
                            Some(0));
      assert Moves(o, 1, 0, 0, "", from, to);
    }
  }
}
