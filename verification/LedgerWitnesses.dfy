/** Runs in which the ledger's rough edges show. */
module LedgerWitnesses {
  import opened Wrappers
  import opened Vat
  import opened Database
  import opened SubscriptionRules
  import opened PaymentRules
  import opened LedgerRuns
  import opened LedgerTheorems

  const PLANS: PlanTable := map[Day := Plan(5.0, 1, true), Month := Plan(100.0, 30, true)]

  const SHOP := Tables(0, PLANS, [], [], [], [])

  const MONTH_MS: nat := 30 * DAY_MS

  function Order(plan: PlanCode, provider: string): Purchase { Purchase(1, plan, 1, provider, None, None) }

  /** The payment bought, once its provider has answered with a reference. */
  function Bought(clock: int, plan: PlanCode, provider: string, reference: string): Payment
    requires plan in PLANS
  {
    Priced(SHOP.(clock := clock), Order(plan, provider), Given(0.0)).(providerRef := Some(reference),
        status := AwaitingProvider)
  }

  lemma Then(t: Tables, ops: seq<Op>, op: Op) returns (more: seq<Op>)
    ensures more == ops + [op] && Run(t, more) == Apply(Run(t, ops), op)
  {
    more := ops + [op];
    assert more[..|ops|] == ops;
  }

  lemma MonthRuns(t: Tables, p: Payment)
    requires t == SHOP.(payments := [p]) && p.planner == 1 && p.plan == Some(Month) && p.quantity == 1 && Undecided(p)
    ensures Apply(t, ReviewPayment(0, Confirming, None))
            == t.(payments := [p.(rejectionReason := None, status := Confirmed)],
                  subs := [Subscription(1, Month, 0, Active, None, Some(0), Some(MONTH_MS))])
  {
    var paid := t.(payments := [p.(rejectionReason := None, status := Confirmed)]);
    assert t.payments[0 := paid.payments[0]] == paid.payments;
    assert DatedRows(PLANS, 0, None, 1, Month, 0, 0) == [];
    assert Mint(paid, 0) == Ok(Minted(DatedRows(PLANS, 0, None, 1, Month, 0, 1), false));
  }

  lemma DayBanked(t: Tables, p: Payment, q: Payment, s: Subscription)
    requires t == SHOP.(payments := [p, q], subs := [s]) && s.payment == 0
    requires q.planner == 1 && q.plan == Some(Day) && q.quantity == 1 && Undecided(q)
    ensures Apply(t, ReviewPayment(1, Confirming, None))
            == t.(payments := [p, q.(rejectionReason := None, status := Confirmed)], subs := [s, CreditRow(1, Day, 1)])
  {
    var paid := t.(payments := [p, q.(rejectionReason := None, status := Confirmed)]);
    assert t.payments[1 := paid.payments[1]] == paid.payments;
    assert CreditRows(1, 1, 0) == [];
    assert Mint(paid, 1) == Ok(Minted(CreditRows(1, 1, 1), false));
  }

  /** A month and a day pass are bought and confirmed, and the month is over. */
  lemma MonthOver() returns (ops: seq<Op>)
    ensures var t := Run(SHOP, ops);
            && t.plans == PLANS && t.clock == MONTH_MS
            && t.subs == [Subscription(1, Month, 0, Active, None, Some(0), Some(MONTH_MS)), CreditRow(1, Day, 1)]
  {
    var p, q := Bought(0, Month, "manual", "a"), Bought(0, Day, "manual", "b");
    ops := Then(SHOP, [], Buy(Order(Month, "manual"), Given(0.0), Some(Intent("a", None))));
    assert Run(SHOP, ops) == SHOP.(payments := [p]);
    MonthRuns(Run(SHOP, ops), p);
    ops := Then(SHOP, ops, ReviewPayment(0, Confirming, None));
    var t := Run(SHOP, ops);
    assert t.payments[..0] == [] && FindPayment(t.payments, "manual", "b").None?;
    ops := Then(SHOP, ops, Buy(Order(Day, "manual"), Given(0.0), Some(Intent("b", None))));
    assert Run(SHOP, ops) == SHOP.(payments := t.payments + [q], subs := t.subs);
    DayBanked(Run(SHOP, ops), t.payments[0], q, t.subs[0]);
    ops := Then(SHOP, ops, ReviewPayment(1, Confirming, None));
    ops := Then(SHOP, ops, Tick(MONTH_MS));
  }

  /**
   * No sweep has been by: the pass is refused as if something were running, though nothing is, and
   * a sweep is all it takes.
   */
  lemma LapsedRowRefusesCredit() returns (ops: seq<Op>)
    ensures Init(SHOP) && Reachable(Run(SHOP, ops))
    ensures var t := Run(SHOP, ops);
            && |t.subs| == 2 && t.subs[1].user == 1 && t.subs[1].status.Ready?
            && !HasAccess(t.subs, 1, t.clock)
            && Activate(t, 1, 1) == Err(UniqueViolation)
            && Activate(Apply(t, Sweep), 1, 1).Ok?
  {
    ops := MonthOver();
    var late := Run(SHOP, ops);
    assert HasActive(late.subs, 1) by { assert late.subs[0].status.Active?; }
    ActivationSucceeds(late, 1, 1);
    ActivationAfterSweep(late, 1, 1);
  }

  /** A hundred dollars asked, half a cent less paid, and the payment is confirmed. */
  lemma LessThanACentPasses() returns (ops: seq<Op>, d: Delivery)
    ensures Init(SHOP) && Reachable(Run(SHOP, ops))
    ensures d.parsed.Some? && d.parsed.value.amount == Some(99.995)
    ensures var t, t' := Run(SHOP, ops), Run(SHOP, ops + [Deliver(d)]);
            && |t.payments| == |t'.payments| == 1 && t.payments[0].amountUsd == 100.0
            && !t.payments[0].status.Confirmed? && t'.payments[0].status.Confirmed?
  {
    ops := Then(SHOP, [], Buy(Order(Month, "mock"), Given(0.0), Some(Intent("a", None))));
    d := Delivery("mock", true, Some(ParsedWebhook("a", Paid, Some(99.995), "USD")));
    var t := Run(SHOP, ops);
    assert t.payments == [Bought(0, Month, "mock", "a")];
    FreeOfTax();
    WebhookConfirms(t, d, 0);
    var more := Then(SHOP, ops, Deliver(d));
  }

  lemma FreeOfTax()
    ensures Quote(100.0, 1, 0.0).totalUsd == 100.0
  {
    FloorIs(0.5, 0);
    FloorIs(10000.5, 10000);
  }
}
