/** What every payment operation keeps: subscriptions are minted for confirmed payments, once each. */
module LedgerInvariant {
  import opened Wrappers
  import opened Vat
  import opened Database
  import opened SubscriptionRules
  import opened SubscriptionInvariant
  import opened PaymentRules

  /** Rows minted for payment id. */
  function CountFor(subs: seq<Subscription>, id: RowId): nat {
    if subs == [] then 0
    else CountFor(subs[..|subs| - 1], id) + if subs[|subs| - 1].payment == id then 1 else 0
  }

  /** Rows the payment has paid for. */
  function Owed(p: Payment): nat { if p.status.Confirmed? && p.plan.Some? then p.quantity else 0 }

  function TotalOwed(payments: seq<Payment>): nat {
    if payments == [] then 0 else TotalOwed(payments[..|payments| - 1]) + Owed(payments[|payments| - 1])
  }

  ghost predicate RowsBelong(payments: seq<Payment>, subs: seq<Subscription>) {
    forall i | 0 <= i < |subs| ::
      && subs[i].payment < |payments|
      && payments[subs[i].payment].planner == subs[i].user
      && payments[subs[i].payment].plan == Some(subs[i].plan)
  }

  ghost predicate ReferencesUnique(payments: seq<Payment>) {
    forall i, j | 0 <= i < j < |payments| && payments[i].provider == payments[j].provider
        && payments[i].providerRef.Some? ::
      payments[i].providerRef != payments[j].providerRef
  }

  /** Amounts are whole cents; an intent's net and tax add up to what is charged. */
  ghost predicate AmountsOk(payments: seq<Payment>) {
    forall i | 0 <= i < |payments| ::
      && WholeCents(payments[i].amountUsd)
      && (payments[i].plan.Some? ==>
            payments[i].quantity > 0 && payments[i].amountUsd == payments[i].subtotalUsd + payments[i].vatUsd)
  }

  ghost predicate Conserved(payments: seq<Payment>, subs: seq<Subscription>) {
    && (forall id | 0 <= id < |payments| :: CountFor(subs, id) == Owed(payments[id]))
    && |subs| == TotalOwed(payments)
  }

  ghost predicate LedgerInv(payments: seq<Payment>, subs: seq<Subscription>) {
    RowsBelong(payments, subs) && ReferencesUnique(payments) && AmountsOk(payments) && Conserved(payments, subs)
  }

  ghost predicate Inv(t: Tables) {
    SubsInv(t.plans, t.clock, t.subs) && LedgerInv(t.payments, t.subs)
  }

  // ---- Counting ----

  lemma {:induction false} CountForRows(subs: seq<Subscription>, rows: seq<Subscription>, payment: RowId, id: RowId)
    requires forall r | r in rows :: r.payment == payment
    ensures CountFor(subs + rows, id) == CountFor(subs, id) + if id == payment then |rows| else 0
    decreases |rows|
  {
    if rows == [] {
      assert subs + rows == subs;
    } else {
      var init, last := rows[..|rows| - 1], rows[|rows| - 1];
      assert last in rows;
      assert (subs + rows)[..|subs + rows| - 1] == subs + init;
      CountForRows(subs, init, payment, id);
    }
  }

  lemma {:induction false} CountForNone(subs: seq<Subscription>, id: RowId)
    ensures CountFor(subs, id) == 0 <==> forall s | s in subs :: s.payment != id
    decreases |subs|
  {
    if subs != [] {
      assert subs == subs[..|subs| - 1] + [subs[|subs| - 1]];
      CountForNone(subs[..|subs| - 1], id);
    }
  }

  lemma {:induction false} CountForSame(subs: seq<Subscription>, subs': seq<Subscription>, id: RowId)
    requires |subs| == |subs'| && forall i | 0 <= i < |subs| :: subs'[i].payment == subs[i].payment
    ensures CountFor(subs', id) == CountFor(subs, id)
    decreases |subs|
  {
    if subs != [] {
      CountForSame(subs[..|subs| - 1], subs'[..|subs| - 1], id);
    }
  }

  lemma {:induction false} TotalOwedUpdate(payments: seq<Payment>, id: RowId, p: Payment)
    requires id < |payments|
    ensures TotalOwed(payments[id := p]) == TotalOwed(payments) - Owed(payments[id]) + Owed(p)
    decreases |payments|
  {
    var n := |payments| - 1;
    if id == n {
      assert payments[id := p][..n] == payments[..n];
    } else {
      assert payments[id := p][..n] == payments[..n][id := p];
      TotalOwedUpdate(payments[..n], id, p);
    }
  }

  lemma {:induction false} TotalOwedSame(payments: seq<Payment>, payments': seq<Payment>)
    requires |payments| == |payments'| && forall i | 0 <= i < |payments| :: Owed(payments'[i]) == Owed(payments[i])
    ensures TotalOwed(payments') == TotalOwed(payments)
    decreases |payments|
  {
    if payments != [] {
      TotalOwedSame(payments[..|payments| - 1], payments'[..|payments| - 1]);
    }
  }

  // ---- Steps that mint nothing ----

  /** The subscriptions change without changing hands. */
  lemma SubsStepKeeps(payments: seq<Payment>, subs: seq<Subscription>, subs': seq<Subscription>)
    requires LedgerInv(payments, subs) && |subs'| == |subs|
    requires forall i | 0 <= i < |subs| ::
               subs'[i].payment == subs[i].payment && subs'[i].user == subs[i].user && subs'[i].plan == subs[i].plan
    ensures LedgerInv(payments, subs')
  {
    forall id | 0 <= id < |payments|
      ensures CountFor(subs', id) == Owed(payments[id])
    {
      CountForSame(subs, subs', id);
    }
  }

  /** A payment that is not decided for keeps what it is, and is not confirmed on the way. */
  ghost predicate Unpaid(p: Payment, p': Payment) {
    && p'.planner == p.planner && p'.plan == p.plan && p'.quantity == p.quantity
    && p'.subtotalUsd == p.subtotalUsd && p'.vatUsd == p.vatUsd && p'.amountUsd == p.amountUsd
    && p'.provider == p.provider && p'.providerRef == p.providerRef
    && (p'.status == p.status || (!p.status.Confirmed? && !p'.status.Confirmed?))
  }

  lemma PaymentsStepKeeps(payments: seq<Payment>, payments': seq<Payment>, subs: seq<Subscription>)
    requires LedgerInv(payments, subs) && |payments'| == |payments|
    requires forall i | 0 <= i < |payments| :: Unpaid(payments[i], payments'[i])
    ensures LedgerInv(payments', subs)
  {
    TotalOwedSame(payments, payments');
    assert forall i | 0 <= i < |payments| :: Owed(payments'[i]) == Owed(payments[i]);
    assert ReferencesUnique(payments');
    assert AmountsOk(payments') by {
      forall i | 0 <= i < |payments'|
        ensures WholeCents(payments'[i].amountUsd)
      {
        assert Unpaid(payments[i], payments'[i]) && WholeCents(payments[i].amountUsd);
      }
    }
  }

  // ---- Minting ----

  /** One row put at the end of the chain, or run at once when there is none. */
  lemma NextRowKeeps(plans: PlanTable, clock: int, subs: seq<Subscription>, row: Subscription)
    requires SubsInv(plans, clock, subs) && row.plan in plans
    requires row == NextRow(plans, clock, ChainEnd(plans, clock, subs, row.user), row.user, row.plan, row.payment)
    ensures SubsInv(plans, clock, subs + [row])
    ensures var end := ChainEnd(plans, clock, subs, row.user);
            ChainEnd(plans, clock, subs + [row], row.user)
            == Some((if end.None? then clock else end.value) + PlanMs(plans, row.plan))
  {
    NextRowFits(plans, clock, subs, row);
    InsertKeeps(plans, clock, subs, row);
    ChainAfterNext(plans, clock, subs, row);
  }

  lemma NextRowFits(plans: PlanTable, clock: int, subs: seq<Subscription>, row: Subscription)
    requires RowsOk(plans, clock, subs) && row.plan in plans
    requires row == NextRow(plans, clock, ChainEnd(plans, clock, subs, row.user), row.user, row.plan, row.payment)
    ensures Fits(plans, clock, subs, row)
  {
    ChainEndIs(plans, clock, subs, row.user);
  }

  lemma ChainAfterNext(plans: PlanTable, clock: int, subs: seq<Subscription>, row: Subscription)
    requires RowsOk(plans, clock, subs) && RowsOk(plans, clock, subs + [row])
    requires row == NextRow(plans, clock, ChainEnd(plans, clock, subs, row.user), row.user, row.plan, row.payment)
    ensures var end := ChainEnd(plans, clock, subs, row.user);
            ChainEnd(plans, clock, subs + [row], row.user)
            == Some((if end.None? then clock else end.value) + PlanMs(plans, row.plan))
  {
    ChainEndIs(plans, clock, subs, row.user);
    Extended(plans, clock, subs, row, row.user);
    ChainEndIs(plans, clock, subs + [row], row.user);
    NoQueueNoTime(plans, subs, row.user);
  }

  lemma {:induction false} NoQueueNoTime(plans: PlanTable, subs: seq<Subscription>, user: UserId)
    ensures !HasQueued(subs, user) ==> QueuedMs(plans, subs, user) == 0
    decreases |subs|
  {
    if subs != [] && !HasQueued(subs, user) {
      var init := subs[..|subs| - 1];
      assert forall i | 0 <= i < |init| :: init[i] == subs[i];
      NoQueueNoTime(plans, init, user);
    }
  }

  /** The end of the chain once n periods of a plan have been put at its end. */
  function ChainAfter(plans: PlanTable, clock: int, end: Option<int>, plan: PlanCode, n: nat): Option<int> {
    if n == 0 then end else Some((if end.Some? then end.value else clock) + n * PlanMs(plans, plan))
  }

  lemma DatedRowKeeps(plans: PlanTable, clock: int, subs: seq<Subscription>, end: Option<int>, user: UserId,
                      plan: PlanCode, payment: RowId, k: nat)
    requires SubsInv(plans, clock, subs) && plan in plans
    requires ChainEnd(plans, clock, subs, user) == ChainAfter(plans, clock, end, plan, k)
    ensures var row := DatedRow(plans, clock, end, user, plan, payment, k);
            && row == NextRow(plans, clock, ChainAfter(plans, clock, end, plan, k), user, plan, payment)
            && SubsInv(plans, clock, subs + [row])
            && ChainEnd(plans, clock, subs + [row], user) == ChainAfter(plans, clock, end, plan, k + 1)
  {
    DatedIsNext(plans, clock, end, user, plan, payment, k);
    NextRowKeeps(plans, clock, subs, DatedRow(plans, clock, end, user, plan, payment, k));
  }

  /** The k-th row is the one the chain of k rows calls for, and its end is the end of the chain of k + 1. */
  lemma DatedIsNext(plans: PlanTable, clock: int, end: Option<int>, user: UserId, plan: PlanCode,
      payment: RowId, k: nat)
    ensures var chain := ChainAfter(plans, clock, end, plan, k);
            && DatedRow(plans, clock, end, user, plan, payment, k) == NextRow(plans, clock, chain, user, plan, payment)
            && ChainAfter(plans, clock, end, plan, k + 1)
               == Some((if chain.None? then clock else chain.value) + PlanMs(plans, plan))
  {
    OneMore(k + 1, PlanMs(plans, plan));
  }

  /** Rows minted one after another from the end of the chain leave it at the end of the last. */
  lemma {:induction false} DatedRowsKeep(plans: PlanTable, clock: int, subs: seq<Subscription>, user: UserId,
                                         plan: PlanCode, payment: RowId, n: nat)
    requires SubsInv(plans, clock, subs) && plan in plans
    ensures var end := ChainEnd(plans, clock, subs, user);
            var subs' := subs + DatedRows(plans, clock, end, user, plan, payment, n);
            && SubsInv(plans, clock, subs')
            && ChainEnd(plans, clock, subs', user) == ChainAfter(plans, clock, end, plan, n)
    decreases n
  {
    var end := ChainEnd(plans, clock, subs, user);
    if n == 0 {
      assert subs + DatedRows(plans, clock, end, user, plan, payment, n) == subs;
    } else {
      DatedRowsKeep(plans, clock, subs, user, plan, payment, n - 1);
      var before := subs + DatedRows(plans, clock, end, user, plan, payment, n - 1);
      DatedRowKeeps(plans, clock, before, end, user, plan, payment, n - 1);
      assert subs + DatedRows(plans, clock, end, user, plan, payment, n)
             == before + [DatedRow(plans, clock, end, user, plan, payment, n - 1)] by {
        LastDatedRow(plans, clock, subs, end, user, plan, payment, n);
      }
    }
  }

  lemma LastDatedRow(plans: PlanTable, clock: int, subs: seq<Subscription>, end: Option<int>, user: UserId,
                     plan: PlanCode, payment: RowId, n: nat)
    requires n > 0
    ensures subs + DatedRows(plans, clock, end, user, plan, payment, n)
            == (subs + DatedRows(plans, clock, end, user, plan, payment, n - 1))
               + [DatedRow(plans, clock, end, user, plan, payment, n - 1)]
  {
  }

  lemma OneMore(n: nat, ms: nat)
    requires n > 0
    ensures (n - 1) * ms + ms == n * ms
  {
  }

  lemma ChainEndIs(plans: PlanTable, clock: int, subs: seq<Subscription>, user: UserId)
    requires RowsOk(plans, clock, subs)
    ensures ChainEnd(plans, clock, subs, user)
            == if HasActive(subs, user) || HasQueued(subs, user)
               then Some(ChainStart(clock, subs, user) + QueuedMs(plans, subs, user)) else None
  {
    var a := ActiveRow(subs, user);
    if a.Some? {
      assert RowOk(plans, clock, subs[a.value]);
    }
  }

  lemma {:induction false} CreditRowsKeep(plans: PlanTable, clock: int, subs: seq<Subscription>, user: UserId,
      payment: RowId, n: nat)
    requires SubsInv(plans, clock, subs) && Day in plans
    ensures SubsInv(plans, clock, subs + CreditRows(user, payment, n))
    decreases n
  {
    if n == 0 {
      assert subs + CreditRows(user, payment, n) == subs;
    } else {
      var init := subs + CreditRows(user, payment, n - 1);
      assert subs + CreditRows(user, payment, n) == init + [CreditRow(user, Day, payment)];
      CreditRowsKeep(plans, clock, subs, user, payment, n - 1);
      InsertKeeps(plans, clock, init, CreditRow(user, Day, payment));
    }
  }

  lemma MintKeeps(t: Tables, id: RowId)
    requires SubsInv(t.plans, t.clock, t.subs) && Mint(t, id).Ok?
    ensures SubsInv(t.plans, t.clock, t.subs + Mint(t, id).value.rows)
  {
    var p := t.payments[id];
    if Mint(t, id).value.rows == [] {
      assert t.subs + [] == t.subs;
    } else if p.plan.value.Day? {
      CreditRowsKeep(t.plans, t.clock, t.subs, p.planner, id, p.quantity);
    } else {
      DatedRowsKeep(t.plans, t.clock, t.subs, p.planner, p.plan.value, id, p.quantity);
    }
  }

  lemma ConfirmConserves(payments: seq<Payment>, subs: seq<Subscription>, id: RowId, p: Payment,
      rows: seq<Subscription>)
    requires LedgerInv(payments, subs) && id < |payments|
    requires !payments[id].status.Confirmed? && |rows| == Owed(p)
    requires Unpaid(payments[id], p.(status := payments[id].status))
    requires forall r | r in rows :: r.payment == id && r.user == p.planner && Some(r.plan) == p.plan
    ensures LedgerInv(payments[id := p], subs + rows)
  {
    TotalOwedUpdate(payments, id, p);
    forall other | 0 <= other < |payments|
      ensures CountFor(subs + rows, other) == Owed(payments[id := p][other])
    {
      CountForRows(subs, rows, id, other);
    }
    assert WholeCents(payments[id].amountUsd);
    assert AmountsOk(payments[id := p]);
    assert RowsBelong(payments[id := p], subs + rows) by {
      assert forall i | 0 <= i < |rows| :: rows[i] in rows;
    }
  }

  /** Confirming a payment that was not confirmed mints exactly what it paid for. */
  lemma ConfirmKeeps(t: Tables, id: RowId, p: Payment)
    requires Inv(t) && id < |t.payments| && !t.payments[id].status.Confirmed?
    requires p.status.Confirmed? && Unpaid(t.payments[id], p.(status := t.payments[id].status))
    requires Confirm(t, id, p).Ok?
    ensures var (t', minted) := Confirm(t, id, p).value;
            Inv(t') && minted == Owed(p)
  {
    var paid := t.(payments := t.payments[id := p]);
    CountForNone(t.subs, id);
    assert CountFor(t.subs, id) == 0;
    MintKeeps(paid, id);
    ConfirmConserves(t.payments, t.subs, id, p, Mint(paid, id).value.rows);
  }

  // ---- The operations ----

  lemma NewPaymentKeeps(payments: seq<Payment>, subs: seq<Subscription>, p: Payment)
    requires LedgerInv(payments, subs) && !p.status.Confirmed?
    requires p.providerRef.Some? ==> FindPayment(payments, p.provider, p.providerRef.value).None?
    requires WholeCents(p.amountUsd) && p.quantity > 0 && p.amountUsd == p.subtotalUsd + p.vatUsd
    ensures LedgerInv(payments + [p], subs)
  {
    var payments' := payments + [p];
    assert payments'[..|payments|] == payments;
    CountForNone(subs, |payments|);
    assert forall s | s in subs :: s.payment < |payments|;
    assert ReferencesUnique(payments') && AmountsOk(payments');
  }

  lemma CreateIntentKeeps(t: Tables, o: Purchase, rate: RateSetting, intent: Option<Intent>)
    requires Inv(t)
    ensures Inv(CreateIntent(t, o, rate, intent).0)
  {
    if o.plan in t.plans && t.plans[o.plan].onSale && o.quantity > 0 {
      var p := IntentSaves(t, o, rate, intent);
      NewPaymentKeeps(t.payments, t.subs, p);
    }
  }

  /** A purchase that is not refused adds one payment, undecided, in whole cents, under a reference of its own. */
  lemma IntentSaves(t: Tables, o: Purchase, rate: RateSetting, intent: Option<Intent>) returns (p: Payment)
    requires o.plan in t.plans && t.plans[o.plan].onSale && o.quantity > 0
    ensures CreateIntent(t, o, rate, intent).0 == t.(payments := t.payments + [p])
    ensures !p.status.Confirmed? && p.quantity > 0 && WholeCents(p.amountUsd) && p.amountUsd == p.subtotalUsd + p.vatUsd
    ensures p.providerRef.Some? ==> FindPayment(t.payments, p.provider, p.providerRef.value).None?
  {
    p := CreateIntent(t, o, rate, intent).0.payments[|t.payments|];
  }

  lemma ReportKeeps(t: Tables, user: UserId, id: RowId, service: string, reference: string)
    requires Inv(t)
    ensures Inv(Report(t, user, id, service, reference).0)
  {
    PaymentsStepKeeps(t.payments, Report(t, user, id, service, reference).0.payments, t.subs);
  }

  lemma ReviewKeeps(t: Tables, id: RowId, decision: Decision, reason: Option<string>)
    requires Inv(t)
    ensures Inv(Review(t, id, decision, reason).0)
    ensures Review(t, id, decision, reason).1.Ok? && decision.Confirming? ==>
              Review(t, id, decision, reason).1.value == Owed(Review(t, id, decision, reason).0.payments[id])
  {
    var (t', r) := Review(t, id, decision, reason);
    if r.Ok? {
      if decision.Confirming? {
        ConfirmKeeps(t, id, t.payments[id].(rejectionReason := reason, status := Confirmed));
      } else {
        PaymentsStepKeeps(t.payments, t'.payments, t.subs);
      }
    }
  }

  lemma ProcessKeeps(t: Tables, d: Delivery)
    requires Inv(t)
    ensures Inv(Process(t, d).0)
  {
    var (outcome, id) := Verdict(t, d);
    var t' := Process(t, d).0;
    if !outcome.WebhookConfirmed? {
      UnconfirmedStep(t, d);
      PaymentsStepKeeps(t.payments, t'.payments, t.subs);
    } else if Process(t, d).1.Ok? {
      ConfirmKeeps(t.(events := t'.events), id.value, t.payments[id.value].(status := Confirmed));
    }
  }

  lemma UnconfirmedStep(t: Tables, d: Delivery)
    requires !Verdict(t, d).0.WebhookConfirmed?
    ensures var t' := Process(t, d).0;
            && t'.subs == t.subs && |t'.payments| == |t.payments|
            && t'.plans == t.plans && t'.clock == t.clock
            && forall i | 0 <= i < |t.payments| :: Unpaid(t.payments[i], t'.payments[i])
  {
  }

  lemma ReconcileKeeps(t: Tables, pollable: seq<string>, answers: map<RowId, ReportedStatus>)
    requires Inv(t)
    ensures Inv(Reconcile(t, pollable, answers))
  {
    var payments' := Reconcile(t, pollable, answers).payments;
    forall i | 0 <= i < |t.payments|
      ensures Unpaid(t.payments[i], payments'[i])
    {
    }
    PaymentsStepKeeps(t.payments, payments', t.subs);
  }
}
