/** What holds of subscriptions and payments in every run. */
module LedgerTheorems {
  import opened Wrappers
  import opened Vat
  import opened Database
  import opened SubscriptionRules
  import opened SubscriptionInvariant
  import opened PaymentRules
  import opened LedgerInvariant
  import opened LedgerRuns

  lemma ReachableInv(t: Tables)
    requires Reachable(t)
    ensures Inv(t)
  {
    var t0: Tables, ops: seq<Op> :| Init(t0) && t == Run(t0, ops);
    RunKeeps(t0, ops);
  }

  // ---- Paid periods ----

  lemma PeriodIsWhole(t: Tables, i: nat)
    requires Inv(t) && i < |t.subs| && Began(t.subs[i])
    ensures t.subs[i].startsAt.Some? && t.subs[i].plan in t.plans
    ensures t.subs[i].expiresAt == Some(t.subs[i].startsAt.value + t.plans[t.subs[i].plan].durationDays * DAY_MS)
  {
    assert RowOk(t.plans, t.clock, t.subs[i]);
  }

  lemma PeriodsNeverMeet(t: Tables, i: nat, j: nat, now: int)
    requires OneActive(t.subs) && PeriodsApart(t.subs)
    requires i < |t.subs| && j < |t.subs| && i != j && t.subs[i].user == t.subs[j].user
    ensures !(t.subs[i].status.Active? && t.subs[j].status.Active?)
    ensures Began(t.subs[i]) && Began(t.subs[j]) ==> !(InPeriod(t.subs[i], now) && InPeriod(t.subs[j], now))
  {
    assert i < j || j < i;
    assert Began(t.subs[i]) && Began(t.subs[j]) ==> Apart(t.subs[i], t.subs[j]) || Apart(t.subs[j], t.subs[i]);
  }

  /** One active row per user, every period as long as its plan, and no two periods of a user overlap. */
  lemma PaidPeriodsNeverOverlap(t: Tables)
    requires Reachable(t)
    ensures forall i: RowId | i < |t.subs| && Began(t.subs[i]) ::
              && t.subs[i].startsAt.Some? && t.subs[i].plan in t.plans
              && t.subs[i].expiresAt == Some(t.subs[i].startsAt.value + t.plans[t.subs[i].plan].durationDays * DAY_MS)
    ensures forall i: RowId, j: RowId | i < |t.subs| && j < |t.subs| && i != j && t.subs[i].user == t.subs[j].user ::
              !(t.subs[i].status.Active? && t.subs[j].status.Active?)
    ensures forall i: RowId, j: RowId, now: int | i < |t.subs| && j < |t.subs| && i != j
        && t.subs[i].user == t.subs[j].user ::
              Began(t.subs[i]) && Began(t.subs[j]) ==> !(InPeriod(t.subs[i], now) && InPeriod(t.subs[j], now))
  {
    ReachableInv(t);
    forall i: RowId | i < |t.subs| && Began(t.subs[i])
      ensures t.subs[i].startsAt.Some? && t.subs[i].plan in t.plans
      ensures t.subs[i].expiresAt == Some(t.subs[i].startsAt.value + t.plans[t.subs[i].plan].durationDays * DAY_MS)
    {
      PeriodIsWhole(t, i);
    }
    forall i: RowId, j: RowId, now: int | i < |t.subs| && j < |t.subs| && i != j && t.subs[i].user == t.subs[j].user
      ensures Began(t.subs[i]) && Began(t.subs[j]) ==> !(InPeriod(t.subs[i], now) && InPeriod(t.subs[j], now))
    {
      PeriodsNeverMeet(t, i, j, now);
    }
    forall i: RowId, j: RowId | i < |t.subs| && j < |t.subs| && i != j && t.subs[i].user == t.subs[j].user
      ensures !(t.subs[i].status.Active? && t.subs[j].status.Active?)
    {
      PeriodsNeverMeet(t, i, j, t.clock);
    }
  }

  predicate InPeriod(s: Subscription, now: int) {
    s.startsAt.Some? && s.expiresAt.Some? && s.startsAt.value <= now < s.expiresAt.value
  }

  /** The access predicate says yes exactly inside a paid period, whatever the sweep has got round to. */
  lemma AccessIsPaidTime(t: Tables, user: UserId)
    requires Reachable(t)
    ensures HasAccess(t.subs, user, t.clock) <==>
            exists i :: 0 <= i < |t.subs| && t.subs[i].user == user && Began(t.subs[i]) && InPeriod(t.subs[i], t.clock)
  {
    ReachableInv(t);
    assert RowsOk(t.plans, t.clock, t.subs);
    if HasAccess(t.subs, user, t.clock) {
      var i :| 0 <= i < |t.subs| && t.subs[i].user == user && Running(t.subs[i], t.clock);
      assert RowOk(t.plans, t.clock, t.subs[i]);
      assert Began(t.subs[i]) && InPeriod(t.subs[i], t.clock);
    }
    if i :| 0 <= i < |t.subs| && t.subs[i].user == user && Began(t.subs[i]) && InPeriod(t.subs[i], t.clock) {
      assert RowOk(t.plans, t.clock, t.subs[i]);
      assert Running(t.subs[i], t.clock);
    }
  }

  // ---- Rows and payments through a run ----

  /** A row waits, runs once, and expires; it never changes hands, and a period once begun never moves. */
  ghost predicate Advances(s: Subscription, s': Subscription) {
    && s'.user == s.user && s'.plan == s.plan && s'.payment == s.payment
    && (s'.status == s.status
        || ((s.status.Ready? || s.status.Queued?) && Began(s'))
        || (s.status.Active? && s'.status.Expired?))
    && (s'.status == s.status || Began(s) ==> s'.startsAt == s.startsAt && s'.expiresAt == s.expiresAt)
  }

  /** A confirmed payment stays exactly as it is; any payment keeps all but its status, transfer details and reason. */
  ghost predicate Settles(p: Payment, p': Payment) {
    && p' == p.(status := p'.status, transferService := p'.transferService, referenceCode := p'.referenceCode,
                rejectionReason := p'.rejectionReason)
    && (p.status.Confirmed? ==> p' == p)
  }

  ghost predicate Follows(t: Tables, t': Tables) {
    && t'.plans == t.plans && t.clock <= t'.clock
    && |t.subs| <= |t'.subs| && |t.payments| <= |t'.payments|
    && (forall i | 0 <= i < |t.subs| :: Advances(t.subs[i], t'.subs[i]))
    && (forall i | 0 <= i < |t.payments| :: Settles(t.payments[i], t'.payments[i]))
  }

  lemma StepFollows(t: Tables, op: Op)
    ensures Follows(t, Apply(t, op))
  {
    match op
    case Deliver(d) => ProcessFollows(t, d);
    case ReconcilePayments(pollable, answers) => ReconcileFollows(t, pollable, answers);
    case Sweep => SweepFollows(t);
    case ReviewPayment(id, decision, reason) => ReviewFollows(t, id, decision, reason);
    case Buy(o, rate, intent) => BuyFollows(t, o, rate, intent);
    case ActivateCredit(user, id) => ActivateFollows(t, user, id);
    case _ =>
  }

  lemma BuyFollows(t: Tables, o: Purchase, rate: RateSetting, intent: Option<Intent>)
    ensures Follows(t, CreateIntent(t, o, rate, intent).0)
  {
    if o.plan in t.plans && t.plans[o.plan].onSale && o.quantity > 0 {
      var p := IntentSaves(t, o, rate, intent);
    }
  }

  lemma ActivateFollows(t: Tables, user: UserId, id: RowId)
    ensures Follows(t, Apply(t, ActivateCredit(user, id)))
  {
  }

  lemma ReconcileFollows(t: Tables, pollable: seq<string>, answers: map<RowId, ReportedStatus>)
    ensures Follows(t, Reconcile(t, pollable, answers))
  {
    var t' := Reconcile(t, pollable, answers);
    forall i | 0 <= i < |t.payments|
      ensures Settles(t.payments[i], t'.payments[i])
    {
    }
  }

  lemma SweepFollows(t: Tables)
    ensures Follows(t, t.(subs := Swept(t.plans, t.subs, t.clock)))
  {
    var subs' := Swept(t.plans, t.subs, t.clock);
    forall i | 0 <= i < |t.subs|
      ensures Advances(t.subs[i], subs'[i])
    {
    }
  }

  lemma ConfirmFollows(t: Tables, id: RowId, p: Payment)
    requires id < |t.payments| && Settles(t.payments[id], p) && Confirm(t, id, p).Ok?
    ensures Follows(t, Confirm(t, id, p).value.0)
  {
  }

  lemma ReviewFollows(t: Tables, id: RowId, decision: Decision, reason: Option<string>)
    ensures Follows(t, Review(t, id, decision, reason).0)
  {
    if Review(t, id, decision, reason).1.Ok? && decision.Confirming? {
      ConfirmFollows(t, id, t.payments[id].(rejectionReason := reason, status := Confirmed));
    }
  }

  lemma ProcessFollows(t: Tables, d: Delivery)
    ensures Follows(t, Process(t, d).0)
  {
    var (outcome, id) := Verdict(t, d);
    var t' := Process(t, d).0;
    if outcome.WebhookConfirmed? && Process(t, d).1.Ok? {
      ConfirmFollows(t.(events := t'.events), id.value, t.payments[id.value].(status := Confirmed));
    }
  }

  lemma {:induction false} RunFollows(t: Tables, ops: seq<Op>)
    ensures Follows(t, Run(t, ops))
    decreases |ops|
  {
    if ops != [] {
      RunFollows(t, ops[..|ops| - 1]);
      var mid := Run(t, ops[..|ops| - 1]);
      StepFollows(mid, ops[|ops| - 1]);
      forall i | 0 <= i < |t.subs|
        ensures Advances(t.subs[i], Run(t, ops).subs[i])
      {
        assert Advances(t.subs[i], mid.subs[i]) && Advances(mid.subs[i], Run(t, ops).subs[i]);
      }
      forall i | 0 <= i < |t.payments|
        ensures Settles(t.payments[i], Run(t, ops).payments[i])
      {
        assert Settles(t.payments[i], mid.payments[i]) && Settles(mid.payments[i], Run(t, ops).payments[i]);
      }
    }
  }

  // ---- Stacking ----

  /**
   * However late the sweeps and whatever is activated meanwhile, a queued row starts at or after
   * its projected start.
   */
  lemma StackedPlanNeverStartsEarly(t: Tables, ops: seq<Op>, i: nat)
    requires Reachable(t) && i < |t.subs| && t.subs[i].status.Queued?
    ensures i < |Run(t, ops).subs|
    ensures var s := Run(t, ops).subs[i];
            t.subs[i].startsAt.Some? && s.startsAt.Some? && t.subs[i].startsAt.value <= s.startsAt.value
  {
    ReachableInv(t);
    StartOnlyMovesLater(t, ops, i);
  }

  lemma {:induction false} StartOnlyMovesLater(t: Tables, ops: seq<Op>, i: nat)
    requires Inv(t) && i < |t.subs| && t.subs[i].status.Queued?
    ensures Inv(Run(t, ops)) && i < |Run(t, ops).subs|
    ensures var s := Run(t, ops).subs[i];
            t.subs[i].startsAt.Some? && s.startsAt.Some? && t.subs[i].startsAt.value <= s.startsAt.value
    decreases |ops|
  {
    assert RowOk(t.plans, t.clock, t.subs[i]);
    if ops != [] {
      var mid := Run(t, ops[..|ops| - 1]);
      StartOnlyMovesLater(t, ops[..|ops| - 1], i);
      RunFollows(t, ops[..|ops| - 1]);
      assert Advances(t.subs[i], mid.subs[i]);
      ApplyKeeps(mid, ops[|ops| - 1]);
      StepFollows(mid, ops[|ops| - 1]);
      assert Advances(mid.subs[i], Run(t, ops).subs[i]);
      if mid.subs[i].status.Queued? {
        StartsNow(mid, ops[|ops| - 1], i);
      }
    }
  }

  lemma StartsNow(t: Tables, op: Op, i: nat)
    requires Inv(t) && i < |t.subs| && t.subs[i].status.Queued?
    ensures i < |Apply(t, op).subs|
    ensures var s := Apply(t, op).subs[i];
            if s.status.Queued? then s.startsAt == t.subs[i].startsAt
            else s.startsAt == Some(t.clock) && t.subs[i].startsAt.Some? && t.subs[i].startsAt.value <= t.clock
  {
    StepFollows(t, op);
    if op.Sweep? {
      PromotedOnTime(t, i);
    } else {
      assert Advances(t.subs[i], Apply(t, op).subs[i]);
      OnlySweepPromotes(t, op, i);
    }
  }

  lemma OnlySweepPromotes(t: Tables, op: Op, i: nat)
    requires i < |t.subs| && t.subs[i].status.Queued? && !op.Sweep?
    ensures i < |Apply(t, op).subs| && Apply(t, op).subs[i] == t.subs[i]
  {
    match op
    case Deliver(d) =>
      assert t.subs <= Process(t, d).0.subs;
    case _ =>
  }

  /** A promoted row had nothing ahead of it but a period that has run out. */
  lemma PromotedOnTime(t: Tables, i: nat)
    requires Inv(t) && i < |t.subs| && t.subs[i].status.Queued?
    ensures var s := Swept(t.plans, t.subs, t.clock)[i];
            if s.status.Queued? then s == t.subs[i]
            else s.startsAt == Some(t.clock) && t.subs[i].startsAt.Some? && t.subs[i].startsAt.value <= t.clock
  {
    var after := AfterExpiry(t.subs, t.clock);
    ExpiryKeeps(t.plans, t.clock, t.subs);
    assert RowOk(t.plans, t.clock, after[i]) && ProjectedInTime(t.plans, t.clock, after, i);
    if NextInLine(after, i) {
      NothingAhead(t.plans, after, i, after[i].user);
    }
  }

  lemma {:induction false} NothingAhead(plans: PlanTable, subs: seq<Subscription>, n: nat, user: UserId)
    requires n <= |subs| && forall j | 0 <= j < n :: !(subs[j].user == user && subs[j].status.Queued?)
    ensures QueuedMs(plans, subs[..n], user) == 0
    decreases n
  {
    if n > 0 {
      assert subs[..n][..n - 1] == subs[..n - 1];
      NothingAhead(plans, subs, n - 1, user);
    }
  }

  // ---- The ledger ----

  /** Rows exist for a payment exactly when it is confirmed and has a plan, and then exactly as many as were bought. */
  lemma LedgerIsConserved(t: Tables)
    requires Reachable(t)
    ensures forall id | 0 <= id < |t.payments| ::
              CountFor(t.subs, id)
              == if t.payments[id].status.Confirmed? && t.payments[id].plan.Some? then t.payments[id].quantity else 0
    ensures |t.subs| == TotalOwed(t.payments)
    ensures forall s | s in t.subs ::
              && s.payment < |t.payments| && t.payments[s.payment].status.Confirmed?
              && t.payments[s.payment].planner == s.user && t.payments[s.payment].plan == Some(s.plan)
  {
    ReachableInv(t);
    forall s | s in t.subs
      ensures s.payment < |t.payments| && t.payments[s.payment].status.Confirmed?
    {
      CountForNone(t.subs, s.payment);
      var i :| 0 <= i < |t.subs| && t.subs[i] == s;
      assert CountFor(t.subs, s.payment) == Owed(t.payments[s.payment]);
    }
  }

  /** From a confirmation on, nothing that happens changes the payment or the number of its rows. */
  lemma ConfirmedAbsorbs(t: Tables, ops: seq<Op>, id: RowId)
    requires Reachable(t) && id < |t.payments| && t.payments[id].status.Confirmed?
    ensures id < |Run(t, ops).payments| && Run(t, ops).payments[id] == t.payments[id]
    ensures CountFor(Run(t, ops).subs, id) == CountFor(t.subs, id)
  {
    ReachableInv(t);
    RunFollows(t, ops);
    RunInv(t, ops);
    assert Settles(t.payments[id], Run(t, ops).payments[id]);
  }

  lemma {:induction false} RunInv(t: Tables, ops: seq<Op>)
    requires Inv(t)
    ensures Inv(Run(t, ops))
    decreases |ops|
  {
    if ops != [] {
      RunInv(t, ops[..|ops| - 1]);
      ApplyKeeps(Run(t, ops[..|ops| - 1]), ops[|ops| - 1]);
    }
  }

  /** A signed webhook names the payment and reports it paid, in its currency and to within a cent of its amount. */
  ghost predicate PaidAsAsked(p: Payment, d: Delivery) {
    && d.provider == "mock" == p.provider && d.signatureOk && d.parsed.Some?
    && p.providerRef == Some(d.parsed.value.providerRef) && d.parsed.value.status.Paid?
    && ChargedAsAsked(p, d.parsed.value)
  }

  ghost predicate CanMint(t: Tables, p: Payment) { p.plan.None? || p.plan.value in t.plans }

  /** The cent allowed is no more than nothing between whole-cent amounts, and the amount asked for is one. */
  lemma PaidToTheCent(t: Tables, d: Delivery, id: RowId)
    requires Reachable(t) && id < |t.payments| && PaidAsAsked(t.payments[id], d)
    ensures var asked, paid := t.payments[id].amountUsd, d.parsed.value.amount.value;
            asked - 0.01 < paid < asked + 0.01 && (WholeCents(paid) ==> paid == asked)
  {
    ReachableInv(t);
    assert WholeCents(t.payments[id].amountUsd);
    if WholeCents(d.parsed.value.amount.value) {
      AmountCheckIsExact(t.payments[id].amountUsd, d.parsed.value.amount.value);
    }
  }

  lemma ConfirmedByVerdict(t: Tables, d: Delivery, id: RowId)
    requires id < |t.payments| && !t.payments[id].status.Confirmed?
    ensures id < |Process(t, d).0.payments|
    ensures Process(t, d).0.payments[id].status.Confirmed? ==> Verdict(t, d) == (WebhookConfirmed, Some(id))
  {
  }

  /** The payment a paid webhook is about is found: no other carries its reference. */
  lemma VerdictIs(t: Tables, d: Delivery, id: RowId)
    requires ReferencesUnique(t.payments) && id < |t.payments| && !t.payments[id].status.Confirmed?
    ensures Verdict(t, d) == (WebhookConfirmed, Some(id)) <==> PaidAsAsked(t.payments[id], d)
  {
    if PaidAsAsked(t.payments[id], d) {
      var found := FindPayment(t.payments, "mock", d.parsed.value.providerRef);
      assert found.Some? && found.value == id;
    }
  }

  lemma VerdictMints(t: Tables, d: Delivery, id: RowId)
    requires Inv(t) && id < |t.payments| && !t.payments[id].status.Confirmed?
        && Verdict(t, d) == (WebhookConfirmed, Some(id))
    ensures id < |Process(t, d).0.payments|
    ensures Process(t, d).0.payments[id].status.Confirmed? <==> CanMint(t, t.payments[id])
    ensures CanMint(t, t.payments[id]) ==>
              && Process(t, d).1 == Ok(WebhookConfirmed)
              && |Process(t, d).0.subs| == |t.subs| + if t.payments[id].plan.Some? then t.payments[id].quantity else 0
  {
    CountForNone(t.subs, id);
    assert CountFor(t.subs, id) == Owed(t.payments[id]);
  }

  /**
   * A webhook confirms a payment exactly when it is signed, names it, and
   * reports it paid as asked, whatever the payment had been marked as before.
   */
  lemma WebhookConfirms(t: Tables, d: Delivery, id: RowId)
    requires Reachable(t) && id < |t.payments| && !t.payments[id].status.Confirmed?
    ensures id < |Process(t, d).0.payments|
    ensures Process(t, d).0.payments[id].status.Confirmed? <==>
        PaidAsAsked(t.payments[id], d) && CanMint(t, t.payments[id])
    ensures Process(t, d).0.payments[id].status.Confirmed? ==>
              && Process(t, d).1 == Ok(WebhookConfirmed)
              && |Process(t, d).0.subs| == |t.subs| + if t.payments[id].plan.Some? then t.payments[id].quantity else 0
  {
    ReachableInv(t);
    VerdictIs(t, d, id);
    ConfirmedByVerdict(t, d, id);
    if PaidAsAsked(t.payments[id], d) {
      VerdictMints(t, d, id);
    }
  }

  /** An admin confirms exactly the undecided payments that can be minted. */
  lemma AdminConfirms(t: Tables, id: RowId, reason: Option<string>)
    requires Reachable(t) && id < |t.payments| && !t.payments[id].status.Confirmed?
    ensures var t' := Review(t, id, Confirming, reason).0;
            id < |t'.payments| && (t'.payments[id].status.Confirmed? <==>
                Undecided(t.payments[id]) && CanMint(t, t.payments[id]))
  {
    ReachableInv(t);
    CountForNone(t.subs, id);
    assert CountFor(t.subs, id) == Owed(t.payments[id]);
  }

  /**
   * A payment becomes confirmed exactly by an admin's decision while it is undecided, or by a
   * webhook for what was asked.
   */
  lemma OnlyTheseConfirm(t: Tables, op: Op, id: RowId)
    requires Reachable(t) && id < |t.payments| && !t.payments[id].status.Confirmed?
    ensures id < |Apply(t, op).payments|
    ensures Apply(t, op).payments[id].status.Confirmed? <==>
              && CanMint(t, t.payments[id])
              && (|| (op.ReviewPayment? && op.id == id && op.decision.Confirming? && Undecided(t.payments[id]))
                  || (op.Deliver? && PaidAsAsked(t.payments[id], op.delivery)))
  {
    StepFollows(t, op);
    match op
    case Deliver(d) => WebhookConfirms(t, d, id);
    case ReconcilePayments(pollable, answers) =>
      assert !Reconcile(t, pollable, answers).payments[id].status.Confirmed?;
    case ReviewPayment(reviewed, decision, reason) =>
      if reviewed == id && decision.Confirming? {
        AdminConfirms(t, id, reason);
      }
    case _ =>
  }

  // ---- The sweep ----

  /**
   * After a sweep nothing lapsed is active, every queue has a running row ahead of it, and access
   * is lost by nobody.
   */
  lemma SweepIsComplete(t: Tables, user: UserId)
    requires Reachable(t)
    ensures var t' := Apply(t, Sweep);
            && (forall i | 0 <= i < |t'.subs| :: !Lapsed(t'.subs[i], t'.clock))
            && (HasQueued(t'.subs, user) ==> HasActive(t'.subs, user))
            && (HasActive(t'.subs, user) <==> HasAccess(t'.subs, user, t'.clock))
            && (HasAccess(t'.subs, user, t'.clock) <==> HasAccess(t.subs, user, t.clock) || HasQueued(t.subs, user))
  {
    ReachableInv(t);
    NothingLapsed(t);
    QueueAfterSweep(t, user);
    ActiveAfterSweep(t, user);
    AccessAfterSweep(t, user);
  }

  lemma QueueAfterSweep(t: Tables, user: UserId)
    ensures var subs' := Swept(t.plans, t.subs, t.clock); HasQueued(subs', user) ==> HasActive(subs', user)
  {
    if HasQueued(Swept(t.plans, t.subs, t.clock), user) {
      QueueIsServed(t.plans, t.clock, AfterExpiry(t.subs, t.clock), user);
    }
  }

  lemma ActiveAfterSweep(t: Tables, user: UserId)
    requires Inv(t)
    ensures var subs' := Swept(t.plans, t.subs, t.clock); HasActive(subs', user) <==> HasAccess(subs', user, t.clock)
  {
    SweepKeeps(t.plans, t.clock, t.subs);
    NothingLapsed(t);
    ActiveIsAccess(t.plans, t.clock, Swept(t.plans, t.subs, t.clock), user);
  }

  /** Sweeping again at the same moment changes nothing. */
  lemma SecondSweepDoesNothing(t: Tables)
    requires Reachable(t)
    ensures Apply(Apply(t, Sweep), Sweep) == Apply(t, Sweep)
  {
    ReachableInv(t);
    var subs' := Swept(t.plans, t.subs, t.clock);
    NothingLapsed(t);
    assert AfterExpiry(subs', t.clock) == subs';
    forall i | 0 <= i < |subs'|
      ensures !NextInLine(subs', i)
    {
      if subs'[i].status.Queued? {
        assert HasQueued(subs', subs'[i].user);
        QueueIsServed(t.plans, t.clock, AfterExpiry(t.subs, t.clock), subs'[i].user);
      }
    }
    assert AfterPromotion(t.plans, subs', t.clock, Waiting(subs')) == subs';
  }

  lemma NothingLapsed(t: Tables)
    requires Inv(t)
    ensures forall i | 0 <= i < |t.subs| :: !Lapsed(Swept(t.plans, t.subs, t.clock)[i], t.clock)
  {
    var after := AfterExpiry(t.subs, t.clock);
    forall i | 0 <= i < |t.subs|
      ensures !Lapsed(Swept(t.plans, t.subs, t.clock)[i], t.clock)
    {
      assert RowOk(t.plans, t.clock, t.subs[i]);
      assert PlanMs(t.plans, after[i].plan) > 0;
    }
  }

  lemma QueueIsServed(plans: PlanTable, clock: int, subs: seq<Subscription>, user: UserId)
    requires HasQueued(AfterPromotion(plans, subs, clock, Waiting(subs)), user)
    ensures HasActive(AfterPromotion(plans, subs, clock, Waiting(subs)), user)
  {
    var subs' := AfterPromotion(plans, subs, clock, Waiting(subs));
    var k :| 0 <= k < |subs'| && subs'[k].user == user && subs'[k].status.Queued?;
    if HasActive(subs, user) {
      var a :| 0 <= a < |subs| && subs[a].user == user && subs[a].status.Active?;
      assert subs'[a].status.Active?;
    } else {
      assert HasQueued(subs, user) by { assert subs[k].status.Queued?; }
      var first := OldestQueued(subs, user).value;
      assert user in Waiting(subs) && NextInLine(subs, first);
      assert subs'[first].status.Active?;
    }
  }

  lemma ActiveIsAccess(plans: PlanTable, clock: int, subs: seq<Subscription>, user: UserId)
    requires RowsOk(plans, clock, subs) && forall i | 0 <= i < |subs| :: !Lapsed(subs[i], clock)
    ensures HasActive(subs, user) <==> HasAccess(subs, user, clock)
  {
    if HasActive(subs, user) {
      var i :| 0 <= i < |subs| && subs[i].user == user && subs[i].status.Active?;
      assert RowOk(plans, clock, subs[i]) && Running(subs[i], clock);
    }
  }

  lemma AccessAfterSweep(t: Tables, user: UserId)
    requires Inv(t)
    ensures HasAccess(Swept(t.plans, t.subs, t.clock), user, t.clock)
            <==> HasAccess(t.subs, user, t.clock) || HasQueued(t.subs, user)
  {
    var after := AfterExpiry(t.subs, t.clock);
    var subs' := Swept(t.plans, t.subs, t.clock);
    NothingLapsed(t);
    SweepKeeps(t.plans, t.clock, t.subs);
    ActiveIsAccess(t.plans, t.clock, subs', user);
    if HasAccess(t.subs, user, t.clock) {
      var i :| 0 <= i < |t.subs| && t.subs[i].user == user && Running(t.subs[i], t.clock);
      assert after[i] == t.subs[i] && Running(subs'[i], t.clock);
    } else if HasQueued(t.subs, user) {
      var k :| 0 <= k < |t.subs| && t.subs[k].user == user && t.subs[k].status.Queued?;
      if subs'[k].status.Queued? {
        QueueIsServed(t.plans, t.clock, after, user);
      }
    } else {
      NoAccessFromNothing(t, user);
    }
  }

  lemma NoAccessFromNothing(t: Tables, user: UserId)
    requires !HasAccess(t.subs, user, t.clock) && !HasQueued(t.subs, user)
    ensures !HasAccess(Swept(t.plans, t.subs, t.clock), user, t.clock)
  {
    assert forall i | 0 <= i < |t.subs| && t.subs[i].user == user ::
        !t.subs[i].status.Queued? && !Running(t.subs[i], t.clock);
  }

  lemma ActiveAfterExpiry(t: Tables, user: UserId)
    requires Inv(t)
    ensures HasActive(AfterExpiry(t.subs, t.clock), user) <==> HasAccess(t.subs, user, t.clock)
  {
    var after := AfterExpiry(t.subs, t.clock);
    ExpiryKeeps(t.plans, t.clock, t.subs);
    ActiveIsAccess(t.plans, t.clock, after, user);
    assert forall k | 0 <= k < |after| :: Running(after[k], t.clock) <==> Running(t.subs[k], t.clock);
  }

  /** A sweep promotes the oldest queued row, and only where nothing runs. */
  lemma SweepPromotesOldest(t: Tables, i: nat)
    requires Reachable(t) && i < |t.subs| && t.subs[i].status.Queued?
    ensures Apply(t, Sweep).subs[i].status.Active? <==>
            && !HasAccess(t.subs, t.subs[i].user, t.clock)
            && forall j | 0 <= j < i :: !(t.subs[j].user == t.subs[i].user && t.subs[j].status.Queued?)
  {
    ReachableInv(t);
    ActiveAfterExpiry(t, t.subs[i].user);
    SweepServesNextInLine(t.plans, t.clock, t.subs, i);
  }

  lemma SweepServesNextInLine(plans: PlanTable, clock: int, subs: seq<Subscription>, i: nat)
    requires i < |subs| && subs[i].status.Queued?
    ensures Swept(plans, subs, clock)[i].status.Active? <==>
            && !HasActive(AfterExpiry(subs, clock), subs[i].user)
            && forall j | 0 <= j < i :: !(subs[j].user == subs[i].user && subs[j].status.Queued?)
  {
    var after := AfterExpiry(subs, clock);
    assert after[i] == subs[i];
    assert forall j | 0 <= j < i ::
        after[j].user == subs[j].user && (after[j].status.Queued? <==> subs[j].status.Queued?);
    assert NextInLine(after, i) ==> after[i].user in Waiting(after);
  }

  // ---- Credits ----

  /** A credit can be started exactly when nothing of the user's is active, lapsed or not. */
  lemma ActivationSucceeds(t: Tables, user: UserId, id: RowId)
    requires Reachable(t) && id < |t.subs| && t.subs[id].user == user && t.subs[id].status.Ready?
    ensures Activate(t, user, id).Ok? <==> !HasActive(t.subs, user)
    ensures Activate(t, user, id) == Err(UniqueViolation)
            <==> HasActive(t.subs, user) && !HasAccess(t.subs, user, t.clock)
  {
    ReachableInv(t);
    assert RowOk(t.plans, t.clock, t.subs[id]);
  }

  /** Right after a sweep the index never refuses a credit: access is the only obstacle. */
  lemma ActivationAfterSweep(t: Tables, user: UserId, id: RowId)
    requires Reachable(t) && id < |t.subs| && t.subs[id].user == user && t.subs[id].status.Ready?
    ensures var t' := Apply(t, Sweep);
            Activate(t', user, id).Ok? <==> !HasAccess(t.subs, user, t.clock) && !HasQueued(t.subs, user)
  {
    SweepIsComplete(t, user);
    var t' := Apply(t, Sweep);
    var t0: Tables, ops: seq<Op> :| Init(t0) && t == Run(t0, ops);
    assert (ops + [Sweep])[..|ops|] == ops;
    assert t' == Run(t0, ops + [Sweep]);
    ActivationSucceeds(t', user, id);
  }
}
