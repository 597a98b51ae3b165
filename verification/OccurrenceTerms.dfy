/** What the payments of a standing order are for: the terms of its row, at the moment of materialisation and over runs. */
module OccurrenceTerms {
  import opened Wrappers
  import opened Posting
  import opened Lifecycle
  import opened Calendar
  import B = Bank
  import BankRuns
  import S = StandingOrders
  import opened Occurrences

  /** The columns that no customer can change later. */
  predicate SameParties(o: B.PaymentOrder, owner: Uuid, t: Template) {
    && o.owner == owner && o.source == t.source && o.beneficiary == t.beneficiary
    && o.name == t.name && o.iban == t.iban && o.bic == t.bic && o.reference == t.reference
    && o.schedule == B.Standing
    && (t.beneficiary.Some? ==> o.kind == B.Internal && o.vop == B.Match)
    && (t.beneficiary.None? ==> o.kind == (if t.instant then B.SepaInstant else B.Sepa) && o.vop == B.Other)
  }

  predicate SameTerms(o: B.PaymentOrder, owner: Uuid, t: Template) {
    SameParties(o, owner, t) && o.amount == t.amount && o.purpose == t.purpose
  }

  // ----- one materialisation -----

  /** One occurrence adds one scheduled payment order, on the terms of the standing order at that moment, for the time of
      its next execution and under its key; no other row of the payment core changes. */
  lemma {:induction false} OccurrenceAdds(w: World, id: Uuid, order: Uuid, now: Instant)
    requires MaterialiseOne(w, id, order, now).Some?
    ensures var t := MaterialiseOne(w, id, order, now).value;
      && id in w.book.rows && id in w.templates && order !in w.bank.orders && order in t.bank.orders
      && t.bank == w.bank.(orders := w.bank.orders[order := t.bank.orders[order]])
      && var row, o := w.book.rows[id], t.bank.orders[order];
         && SameTerms(o, row.owner, w.templates[id])
         && o.requestedAt == row.next.day * 86_400_000_000_000 + row.next.nanos
         && o.key == KeyText(S.Key(id, row.next.day, row.next.nanos / 1_000_000_000))
         && o.status == Scheduled && o.attempts == 0 && o.startedAt == None && o.ledgerTx == None && o.rejectCode == None
         && !o.vopOverridden
  {
    hide KeyText;
  }

  lemma OccurrenceAppends(w: World, id: Uuid, order: Uuid, now: Instant)
    requires MaterialiseOne(w, id, order, now).Some?
    ensures var t := MaterialiseOne(w, id, order, now).value;
      && id in w.book.rows && t.links == w.links + [order] && t.templates == w.templates
      && |t.book.payments| == |w.book.payments| + 1 && t.book.payments[|w.book.payments|].standing == id
      && t.book.payments[..|w.book.payments|] == w.book.payments
      && SameOwners(w, t)
  {
    hide KeyText;
  }

  predicate SameOwners(w: World, t: World) {
    w.book.rows.Keys == t.book.rows.Keys && forall id :: id in w.book.rows ==> t.book.rows[id].owner == w.book.rows[id].owner
  }

  /** The rows that a batch adds: one order for each of its pairs, on the terms of the standing order. */
  predicate BatchRow(w: World, t: World, id: Uuid, order: Uuid) {
    && id in w.book.rows && id in w.templates && order !in w.bank.orders && order in t.bank.orders
    && SameTerms(t.bank.orders[order], w.book.rows[id].owner, w.templates[id]) && t.bank.orders[order].status == Scheduled
  }

  predicate OldRow(w: World, t: World, order: Uuid) {
    order in w.bank.orders ==> order in t.bank.orders && t.bank.orders[order] == w.bank.orders[order]
  }

  /** A whole batch: every pair adds its order on the terms of its standing order, no other order is added, none that was
      there changes, and no entry, account, balance or event does. */
  lemma {:induction false} BatchAdds(w: World, batch: seq<(Uuid, Uuid)>, now: Instant)
    requires MaterialiseAll(w, batch, now).Some?
    ensures var t := MaterialiseAll(w, batch, now).value;
      && t.bank == w.bank.(orders := t.bank.orders) && t.templates == w.templates && SameOwners(w, t)
      && (forall i {:trigger batch[i]} :: 0 <= i < |batch| ==> BatchRow(w, t, batch[i].0, batch[i].1))
      && (forall order {:trigger OldRow(w, t, order)} :: OldRow(w, t, order))
      && (forall order :: order in t.bank.orders && order !in w.bank.orders ==> exists i :: 0 <= i < |batch| && batch[i].1 == order)
    decreases |batch|
  {
    hide KeyText, SameTerms;
    if batch != [] {
      var u, t := MaterialiseOne(w, batch[0].0, batch[0].1, now).value, MaterialiseAll(w, batch, now).value;
      OccurrenceAdds(w, batch[0].0, batch[0].1, now);
      OccurrenceAppends(w, batch[0].0, batch[0].1, now);
      BatchAdds(u, batch[1..], now);
      BatchJoins(w, u, t, batch);
    }
  }

  lemma BatchJoins(w: World, u: World, t: World, batch: seq<(Uuid, Uuid)>)
    requires batch != [] && batch[0].1 !in w.bank.orders && batch[0].1 in u.bank.orders && SameOwners(w, u)
    requires u.bank.orders == w.bank.orders[batch[0].1 := u.bank.orders[batch[0].1]] && u.templates == w.templates
    requires BatchRow(w, u, batch[0].0, batch[0].1)
    requires forall i {:trigger batch[1..][i]} :: 0 <= i < |batch| - 1 ==> BatchRow(u, t, batch[1..][i].0, batch[1..][i].1)
    requires forall order {:trigger OldRow(u, t, order)} :: OldRow(u, t, order)
    requires forall order :: order in t.bank.orders && order !in u.bank.orders ==>
               exists i :: 0 <= i < |batch| - 1 && batch[1..][i].1 == order
    ensures forall i {:trigger batch[i]} :: 0 <= i < |batch| ==> BatchRow(w, t, batch[i].0, batch[i].1)
    ensures forall order {:trigger OldRow(w, t, order)} :: OldRow(w, t, order)
    ensures forall order :: order in t.bank.orders && order !in w.bank.orders ==> exists i :: 0 <= i < |batch| && batch[i].1 == order
  {
    hide SameTerms;
    forall i | 0 <= i < |batch| ensures BatchRow(w, t, batch[i].0, batch[i].1) {
      if i == 0 {
        assert OldRow(u, t, batch[0].1);
      } else {
        assert batch[1..][i - 1] == batch[i];
        assert BatchRow(u, t, batch[i].0, batch[i].1);
      }
    }
    forall order ensures OldRow(w, t, order) {
      assert OldRow(u, t, order);
    }
    forall order | order in t.bank.orders && order !in w.bank.orders ensures exists i :: 0 <= i < |batch| && batch[i].1 == order {
      if order in u.bank.orders {
        assert batch[0].1 == order;
      } else {
        var i :| 0 <= i < |batch| - 1 && batch[1..][i].1 == order;
        assert batch[i + 1].1 == order;
      }
    }
  }

  /** A standing order is created for a positive amount, an account of its owner and, if to one of this bank, another
      customer account; from then on none of the two is deleted. */
  lemma {:induction false} CreationMeans(w: World, create: Step)
    requires create.CreateStanding? && Apply(w, create) != w
    ensures var t, terms := Apply(w, create), create.template;
      && create.id !in w.book.rows && terms.amount > 0 && create.owner in w.bank.users
      && terms.source in w.bank.accounts && w.bank.accounts[terms.source].owner == Some(create.owner)
      && !w.bank.accounts[terms.source].isSystem
      && (terms.beneficiary.Some? ==>
            && terms.beneficiary.value in w.bank.accounts && terms.beneficiary.value != terms.source
            && !w.bank.accounts[terms.beneficiary.value].isSystem && terms.beneficiary.value in t.bank.pinned)
      && terms.source in t.bank.pinned && t.templates == w.templates[create.id := terms] && t.links == w.links
  {
    hide S.PaymentsOf;
  }

  /** An update sets the amount and the purpose of later payments, and none of the other terms. */
  lemma {:induction false} UpdateMeans(w: World, update: Step)
    requires update.UpdateStanding? && Apply(w, update) != w
    ensures var t, id := Apply(w, update), update.id;
      && id in w.templates && id in w.book.rows && w.book.rows[id].owner == update.owner && update.amount > 0
      && t.bank == w.bank && t.links == w.links && t.book.payments == w.book.payments
      && t.templates == w.templates[id := w.templates[id].(amount := update.amount, purpose := update.purpose)]
      && t.book.rows == w.book.rows[id := w.book.rows[id].(status := update.status, endDate := update.endDate,
                                                           maxOccurrences := update.max)]
  {
  }

  // ----- over runs -----

  /** The payment order of the i-th payment has the fixed columns of its standing order. */
  ghost predicate Faithful(w: World, i: nat)
    requires i < |w.links| && |w.links| == |w.book.payments|
  {
    var id := w.book.payments[i].standing;
    && id in w.book.rows && id in w.templates && w.links[i] in w.bank.orders
    && SameParties(w.bank.orders[w.links[i]], w.book.rows[id].owner, w.templates[id])
  }

  ghost predicate AllFaithful(w: World) {
    |w.links| == |w.book.payments| && forall i {:trigger Faithful(w, i)} :: 0 <= i < |w.links| ==> Faithful(w, i)
  }

  /** The standing order `id` has these terms, and so have all payment orders made for it. */
  ghost predicate Paid(w: World, id: Uuid, t: Template, i: nat)
    requires i < |w.links| && |w.links| == |w.book.payments|
  {
    w.book.payments[i].standing == id ==>
      && w.links[i] in w.bank.orders && w.bank.orders[w.links[i]].amount == t.amount && w.bank.orders[w.links[i]].purpose == t.purpose
  }

  ghost predicate AllPaid(w: World, id: Uuid, owner: Uuid, t: Template) {
    && |w.links| == |w.book.payments| && id in w.templates && w.templates[id] == t
    && id in w.book.rows && w.book.rows[id].owner == owner
    && forall i {:trigger Paid(w, id, t, i)} :: 0 <= i < |w.links| ==> Paid(w, id, t, i)
  }

  /** The steps that touch neither the payments nor the fixed columns. */
  ghost predicate SameTemplates(w: World, t: World) {
    forall id :: id in w.templates ==>
      id in t.templates && t.templates[id] == w.templates[id].(amount := t.templates[id].amount, purpose := t.templates[id].purpose)
  }

  ghost predicate OrdersKeepTerms(s: B.State, t: B.State) {
    forall id {:trigger SameIdentities(s, t, id)} :: SameIdentities(s, t, id)
  }

  ghost predicate SameIdentities(s: B.State, t: B.State, id: Uuid) {
    id in s.orders ==> id in t.orders && BankRuns.Identity(t.orders[id]) == BankRuns.Identity(s.orders[id])
  }

  lemma BankKeepsTerms(s: B.State, step: B.Step)
    ensures OrdersKeepTerms(s, B.Apply(s, step))
  {
    forall id ensures SameIdentities(s, B.Apply(s, step), id) {
      if id in s.orders {
        BankRuns.StepMovesOrder(s, step, id);
      }
    }
  }

  lemma IdentityKeepsTerms(o: B.PaymentOrder, p: B.PaymentOrder)
    requires BankRuns.Identity(o) == BankRuns.Identity(p)
    ensures p.amount == o.amount && p.purpose == o.purpose
    ensures forall owner, t :: SameParties(o, owner, t) <==> SameParties(p, owner, t)
  {
    var i, j := BankRuns.Identity(o), BankRuns.Identity(p);
    assert i.amount == o.amount && j.amount == p.amount && i.purpose == o.purpose && j.purpose == p.purpose;
    forall owner, t ensures SameParties(o, owner, t) <==> SameParties(p, owner, t) {
      assert SameParties(o, owner, t) <==> SameParties(i, owner, t);
      assert SameParties(p, owner, t) <==> SameParties(j, owner, t);
    }
  }

  /** Payments, and orders up to the columns that the payment core changes, stay. */
  lemma QuietKeeps(w: World, t: World)
    requires AllFaithful(w) && SameTemplates(w, t) && OrdersKeepTerms(w.bank, t.bank)
    requires t.links == w.links && t.book.payments == w.book.payments
    requires forall id :: id in w.book.rows ==> id in t.book.rows && t.book.rows[id].owner == w.book.rows[id].owner
    ensures AllFaithful(t)
    ensures forall id, owner, terms :: AllPaid(w, id, owner, terms) && t.templates[id] == terms ==> AllPaid(t, id, owner, terms)
  {
    forall i | 0 <= i < |t.links| ensures Faithful(t, i) {
      assert Faithful(w, i) && SameIdentities(w.bank, t.bank, w.links[i]);
      IdentityKeepsTerms(w.bank.orders[w.links[i]], t.bank.orders[w.links[i]]);
    }
    forall id, owner, terms | AllPaid(w, id, owner, terms) && t.templates[id] == terms ensures AllPaid(t, id, owner, terms) {
      forall i | 0 <= i < |t.links| ensures Paid(t, id, terms, i) {
        assert Faithful(w, i) && Paid(w, id, terms, i) && SameIdentities(w.bank, t.bank, w.links[i]);
        IdentityKeepsTerms(w.bank.orders[w.links[i]], t.bank.orders[w.links[i]]);
      }
    }
  }

  lemma OccurrenceKeeps(w: World, id: Uuid, order: Uuid, now: Instant)
    requires AllFaithful(w) && MaterialiseOne(w, id, order, now).Some?
    ensures AllFaithful(MaterialiseOne(w, id, order, now).value)
  {
    hide KeyText;
    var t := MaterialiseOne(w, id, order, now).value;
    OccurrenceAdds(w, id, order, now);
    OccurrenceAppends(w, id, order, now);
    forall i | 0 <= i < |t.links| ensures Faithful(t, i) {
      if i < |w.links| {
        assert Faithful(w, i) && t.links[i] == w.links[i];
        assert t.book.payments[i] == t.book.payments[..|w.book.payments|][i];
      }
    }
  }

  lemma OccurrenceKeepsPaid(w: World, id: Uuid, order: Uuid, now: Instant, other: Uuid, owner: Uuid, terms: Template)
    requires AllPaid(w, other, owner, terms) && MaterialiseOne(w, id, order, now).Some?
    ensures AllPaid(MaterialiseOne(w, id, order, now).value, other, owner, terms)
  {
    hide KeyText;
    var t := MaterialiseOne(w, id, order, now).value;
    OccurrenceAdds(w, id, order, now);
    OccurrenceAppends(w, id, order, now);
    forall i | 0 <= i < |t.links| ensures Paid(t, other, terms, i) {
      if i < |w.links| {
        assert Paid(w, other, terms, i) && t.links[i] == w.links[i];
        assert t.book.payments[i] == t.book.payments[..|w.book.payments|][i];
      }
    }
  }

  lemma {:induction false} BatchKeeps(w: World, batch: seq<(Uuid, Uuid)>, now: Instant, id: Uuid, owner: Uuid, terms: Template)
    requires AllFaithful(w) && MaterialiseAll(w, batch, now).Some?
    ensures AllFaithful(MaterialiseAll(w, batch, now).value)
    ensures AllPaid(w, id, owner, terms) ==> AllPaid(MaterialiseAll(w, batch, now).value, id, owner, terms)
    decreases |batch|
  {
    hide KeyText, AllFaithful, AllPaid, MaterialiseOne;
    if batch != [] {
      OccurrenceKeeps(w, batch[0].0, batch[0].1, now);
      if AllPaid(w, id, owner, terms) {
        OccurrenceKeepsPaid(w, batch[0].0, batch[0].1, now, id, owner, terms);
      }
      BatchKeeps(MaterialiseOne(w, batch[0].0, batch[0].1, now).value, batch[1..], now, id, owner, terms);
    }
  }

  predicate NoAmountUpdate(steps: seq<Step>, id: Uuid) {
    forall i :: 0 <= i < |steps| ==> !(steps[i].UpdateStanding? && steps[i].id == id)
  }

  lemma StepKeepsTerms(w: World, step: Step, id: Uuid, owner: Uuid, terms: Template)
    requires AllFaithful(w) && w.book.rows.Keys == w.templates.Keys
    ensures AllFaithful(Apply(w, step)) && Apply(w, step).book.rows.Keys == Apply(w, step).templates.Keys
    ensures AllPaid(w, id, owner, terms) && !(step.UpdateStanding? && step.id == id) ==> AllPaid(Apply(w, step), id, owner, terms)
  {
    hide KeyText, SameParties, MaterialiseOne;
    match step
    case BankStep(b) =>
      BankKeepsTerms(w.bank, b);
      QuietKeeps(w, Apply(w, step));
    case Materialise(batch, now) =>
      if MaterialiseAll(w, batch, now).Some? {
        BatchKeeps(w, batch, now, id, owner, terms);
        BatchAdds(w, batch, now);
      }
    case _ =>
      StandingStepKeepsTerms(w, step, id, owner, terms);
  }

  lemma StandingStepKeepsTerms(w: World, step: Step, id: Uuid, owner: Uuid, terms: Template)
    requires AllFaithful(w) && w.book.rows.Keys == w.templates.Keys && !step.BankStep? && !step.Materialise?
    ensures AllFaithful(Apply(w, step)) && Apply(w, step).book.rows.Keys == Apply(w, step).templates.Keys
    ensures AllPaid(w, id, owner, terms) && !(step.UpdateStanding? && step.id == id) ==> AllPaid(Apply(w, step), id, owner, terms)
  {
    StandingStepIsQuiet(w, step, id);
    hide Apply, SameTemplates, OrdersKeepTerms;
    QuietKeeps(w, Apply(w, step));
    assert AllPaid(w, id, owner, terms) ==> w.templates[id] == terms;
  }

  lemma StandingStepIsQuiet(w: World, step: Step, id: Uuid)
    requires w.book.rows.Keys == w.templates.Keys && !step.BankStep? && !step.Materialise?
    ensures var t := Apply(w, step);
      && SameTemplates(w, t) && OrdersKeepTerms(w.bank, t.bank) && t.links == w.links && t.book.payments == w.book.payments
      && (forall id :: id in w.book.rows ==> id in t.book.rows && t.book.rows[id].owner == w.book.rows[id].owner)
      && t.book.rows.Keys == t.templates.Keys
      && (id in w.templates && !(step.UpdateStanding? && step.id == id) ==> id in t.templates && t.templates[id] == w.templates[id])
  {
    hide Rooted, Referenced, S.PaymentsOf, S.LegalRow, Before, BankRuns.Identity;
    assert forall other :: SameIdentities(w.bank, Apply(w, step).bank, other);
  }

  lemma {:induction false} RunKeepsTerms(w: World, steps: seq<Step>, id: Uuid, owner: Uuid, terms: Template)
    requires AllFaithful(w) && w.book.rows.Keys == w.templates.Keys
    ensures AllFaithful(Run(w, steps)) && Run(w, steps).book.rows.Keys == Run(w, steps).templates.Keys
    ensures AllPaid(w, id, owner, terms) && NoAmountUpdate(steps, id) ==> AllPaid(Run(w, steps), id, owner, terms)
    decreases |steps|
  {
    hide AllFaithful, AllPaid;
    if steps != [] {
      StepKeepsTerms(w, steps[0], id, owner, terms);
      RunKeepsTerms(Apply(w, steps[0]), steps[1..], id, owner, terms);
    }
  }

  /** Over every run, whatever is updated: every payment of a standing order goes from its account to its beneficiary, by
      its name, IBAN, BIC and reference, and of its kind. */
  lemma {:induction false} OccurrencesKeepTheParties(settlement: Uuid, steps: seq<Step>, i: nat)
    requires i < |Run(Initial(settlement), steps).links|
    ensures var w := Run(Initial(settlement), steps);
      && i < |w.book.payments| && w.links[i] in w.bank.orders
      && var id, o := w.book.payments[i].standing, w.bank.orders[w.links[i]];
         id in w.book.rows && id in w.templates && SameParties(o, w.book.rows[id].owner, w.templates[id])
  {
    RunKeepsTerms(Initial(settlement), steps, 0, 0, Template(0, None, "", "", None, 0, None, None, false));
    assert Faithful(Run(Initial(settlement), steps), i);
  }

  /** A standing order is created in some reachable state, and never updated afterwards: every payment made for it is on the
      terms given at its creation, the amount and the purpose included. */
  lemma {:induction false} OccurrencesPayTheTerms(settlement: Uuid, earlier: seq<Step>, create: Step, later: seq<Step>, i: nat)
    requires create.CreateStanding? && NoAmountUpdate(later, create.id)
    requires Apply(Run(Initial(settlement), earlier), create) != Run(Initial(settlement), earlier)
    requires var w := Run(Apply(Run(Initial(settlement), earlier), create), later);
      i < |w.links| && i < |w.book.payments| && w.book.payments[i].standing == create.id
    ensures var w := Run(Apply(Run(Initial(settlement), earlier), create), later);
      w.links[i] in w.bank.orders && SameTerms(w.bank.orders[w.links[i]], create.owner, create.template)
  {
    var id, owner, terms := create.id, create.owner, create.template;
    RunKeepsTerms(Initial(settlement), earlier, id, owner, terms);
    var before := Run(Initial(settlement), earlier);
    CreatedIsPaid(before, create);
    RunKeepsTerms(Apply(before, create), later, id, owner, terms);
    PaidMeans(Run(Apply(before, create), later), id, owner, terms, i);
  }

  lemma CreatedIsPaid(w: World, create: Step)
    requires AllFaithful(w) && w.book.rows.Keys == w.templates.Keys && create.CreateStanding? && Apply(w, create) != w
    ensures var t := Apply(w, create);
      AllFaithful(t) && t.book.rows.Keys == t.templates.Keys && AllPaid(t, create.id, create.owner, create.template)
  {
    StandingStepKeepsTerms(w, create, create.id, create.owner, create.template);
    var t := Apply(w, create);
    forall i | 0 <= i < |t.links| ensures Paid(t, create.id, create.template, i) {
      assert Faithful(w, i);
    }
  }

  lemma PaidMeans(w: World, id: Uuid, owner: Uuid, terms: Template, i: nat)
    requires AllFaithful(w) && AllPaid(w, id, owner, terms) && i < |w.links| && w.book.payments[i].standing == id
    ensures w.links[i] in w.bank.orders && SameTerms(w.bank.orders[w.links[i]], owner, terms)
  {
    assert Faithful(w, i) && Paid(w, id, terms, i);
  }
}
