/** What is asked for a purchase, and what a confirmed purchase has paid for. */
module Pricing {
  import opened Wrappers
  import opened Vat
  import opened Database
  import opened PaymentRules
  import opened LedgerInvariant
  import opened LedgerRuns
  import opened LedgerTheorems

  /** The configured rate if it is a fraction; 11% when there is none; no tax when it is unusable. */
  predicate RateInForce(setting: RateSetting, rate: real) {
    match setting
    case Unset | Blank => rate == 0.11
    case NotFinite => rate == 0.0
    case Given(r) => rate == if 0.0 <= r <= 1.0 then r else 0.0
  }

  /** The price times the quantity, and tax at the rate on all of it to the nearest cent, halves up, added on. */
  predicate Adds(price: real, quantity: nat, net: real, rate: real, tax: real, total: real) {
    && net == price * quantity as real && 0.0 <= rate <= 1.0
    && -0.005 < tax - net * rate <= 0.005 && WholeCents(tax)
    && total == net + tax
  }

  /** What is asked is the list price of the quantity, and the tax on it. */
  predicate AtListPrice(plans: PlanTable, p: Payment) {
    && p.plan.Some? && p.plan.value in plans && p.quantity > 0 && p.currency == "USD"
    && Adds(plans[p.plan.value].priceUsd, p.quantity, p.subtotalUsd, p.vatRate, p.vatUsd, p.amountUsd)
  }

  /** No payment of this provider carries the reference yet. */
  predicate Fresh(payments: seq<Payment>, provider: string, reference: string) {
    forall i | 0 <= i < |payments| :: !(payments[i].provider == provider && payments[i].providerRef == Some(reference))
  }

  /** A purchase of a plan on sale adds one payment, in its buyer's name and at the list price, and changes no other. */
  lemma PurchaseIsPriced(t: Tables, o: Purchase, rate: RateSetting, intent: Option<Intent>)
    ensures var t', n := Apply(t, Buy(o, rate, intent)), |t.payments|;
            if o.plan in t.plans && t.plans[o.plan].onSale && o.quantity > 0 then
              && t' == t.(payments := t'.payments) && |t'.payments| == n + 1 && t'.payments[..n] == t.payments
              && var p := t'.payments[n];
                 && AtListPrice(t.plans, p) && RateInForce(rate, p.vatRate)
                 && p.planner == o.user && p.plan == Some(o.plan) && p.quantity == o.quantity
                 && p.provider == o.provider && p.createdAt == t.clock
                 && p.transferService == o.transferService && p.referenceCode == o.referenceCode
            else t' == t
    ensures var r, onSale := CreateIntent(t, o, rate, intent).1, o.plan in t.plans && t.plans[o.plan].onSale;
            (r == Err(PlanUnavailable) <==> !onSale) && (r == Err(QuantityRefused) <==> onSale && o.quantity == 0)
  {
    if o.plan in t.plans && t.plans[o.plan].onSale && o.quantity > 0 {
      QuoteAdds(t.plans[o.plan].priceUsd, o.quantity, ResolveVatRate(rate));
    }
  }

  lemma QuoteAdds(price: real, quantity: nat, rate: real)
    requires WholeCents(price) && 0.0 <= rate <= 1.0
    ensures var b := Quote(price, quantity, rate);
            b.vatRate == rate && Adds(price, quantity, b.subtotalUsd, rate, b.vatUsd, b.totalUsd)
  {
    var net := price * quantity as real;
    TotalIsExact(net, rate);
    RoundsTo(net * rate, Breakdown(net, rate).vatUsd);
  }

  /** It waits for its provider from then on if the provider answered with a reference of its own. */
  lemma PurchaseAwaitsItsProvider(t: Tables, o: Purchase, rate: RateSetting, intent: Option<Intent>)
    requires o.plan in t.plans && t.plans[o.plan].onSale && o.quantity > 0
    ensures |Apply(t, Buy(o, rate, intent)).payments| > |t.payments|
    ensures var p := Apply(t, Buy(o, rate, intent)).payments[|t.payments|];
            if intent.Some? && Fresh(t.payments, o.provider, intent.value.providerRef) then
              && p.status.AwaitingProvider? && p.providerRef == Some(intent.value.providerRef)
              && p.intentExpiresAt == intent.value.expiresAt
            else p.status.Pending? && p.providerRef.None? && p.intentExpiresAt.None?
    ensures CreateIntent(t, o, rate, intent).1
            == if intent.None? then Err(ProviderFailed)
               else if Fresh(t.payments, o.provider, intent.value.providerRef) then Ok(|t.payments|)
               else Err(DuplicateReference)
  {
    if intent.Some? {
      var found := FindPayment(t.payments, o.provider, intent.value.providerRef);
      assert found.Some? ==> !Fresh(t.payments, o.provider, intent.value.providerRef);
    }
  }

  lemma OnlyBuyAdds(t: Tables, op: Op)
    requires !op.Buy?
    ensures |Apply(t, op).payments| == |t.payments|
  {
    match op
    case Deliver(d) => DeliverAddsNone(t, d);
    case _ =>
  }

  lemma DeliverAddsNone(t: Tables, d: Delivery)
    ensures |Process(t, d).0.payments| == |t.payments|
  {
  }

  /** Everything bought since the start is at the list price. */
  ghost predicate BoughtAtListPrice(t: Tables, from: nat) {
    forall id: RowId | from <= id < |t.payments| :: AtListPrice(t.plans, t.payments[id])
  }

  lemma StepKeepsPrices(t: Tables, op: Op, from: nat)
    requires BoughtAtListPrice(t, from)
    ensures BoughtAtListPrice(Apply(t, op), from)
  {
    var t' := Apply(t, op);
    StepFollows(t, op);
    forall id: RowId | from <= id < |t'.payments|
      ensures AtListPrice(t'.plans, t'.payments[id])
    {
      if id < |t.payments| {
        assert Settles(t.payments[id], t'.payments[id]) && AtListPrice(t.plans, t.payments[id]);
      } else if op.Buy? {
        PurchaseIsPriced(t, op.order, op.rate, op.intent);
      } else {
        OnlyBuyAdds(t, op);
      }
    }
  }

  lemma {:induction false} RunKeepsPrices(t0: Tables, ops: seq<Op>)
    ensures BoughtAtListPrice(Run(t0, ops), |t0.payments|)
    decreases |ops|
  {
    if ops != [] {
      RunKeepsPrices(t0, ops[..|ops| - 1]);
      StepKeepsPrices(Run(t0, ops[..|ops| - 1]), ops[|ops| - 1], |t0.payments|);
    }
  }

  lemma ConfirmedHasItsRows(t: Tables, id: RowId)
    requires Reachable(t) && id < |t.payments| && AtListPrice(t.plans, t.payments[id])
    ensures var p := t.payments[id];
            && (!p.status.Confirmed? ==> CountFor(t.subs, id) == 0)
            && (p.status.Confirmed? ==>
                  && CountFor(t.subs, id) == p.quantity
                  && Adds(t.plans[p.plan.value].priceUsd, CountFor(t.subs, id), p.subtotalUsd, p.vatRate, p.vatUsd,
                          p.amountUsd))
  {
    LedgerIsConserved(t);
  }

  /**
   * In every run: what is asked of a purchase is the list price of the rows it will get and the
   * tax on it, and once it is confirmed it has those rows and no others.
   */
  lemma EveryRowIsPaidFor(t0: Tables, ops: seq<Op>, id: RowId)
    requires Init(t0) && |t0.payments| <= id < |Run(t0, ops).payments|
    ensures var t := Run(t0, ops);
            var p := t.payments[id];
            && AtListPrice(t.plans, p)
            && (!p.status.Confirmed? ==> CountFor(t.subs, id) == 0)
            && (p.status.Confirmed? ==>
                  && CountFor(t.subs, id) == p.quantity
                  && Adds(t.plans[p.plan.value].priceUsd, CountFor(t.subs, id), p.subtotalUsd, p.vatRate, p.vatUsd,
                          p.amountUsd))
  {
    RunKeepsPrices(t0, ops);
    var t := Run(t0, ops);
    assert Reachable(t);
    ConfirmedHasItsRows(t, id);
  }
}
