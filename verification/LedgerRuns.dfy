/** Every run of the system, from an empty subscriptions table. */
module LedgerRuns {
  import opened Wrappers
  import opened Vat
  import opened Database
  import opened SubscriptionRules
  import opened SubscriptionInvariant
  import opened PaymentRules
  import opened LedgerInvariant

  datatype Op =
    | Tick(ms: nat)
    | Buy(order: Purchase, rate: RateSetting, intent: Option<Intent>)
    | ReportTransfer(user: UserId, id: RowId, service: string, reference: string)
    | Deliver(delivery: Delivery)
    | ReviewPayment(id: RowId, decision: Decision, reason: Option<string>)
    | ReconcilePayments(pollable: seq<string>, answers: map<RowId, ReportedStatus>)
    | ActivateCredit(user: UserId, id: RowId)
    | Sweep
    | SendReminders

  function Apply(t: Tables, op: Op): Tables {
    match op
    case Tick(ms) => t.(clock := t.clock + ms)
    case Buy(o, rate, intent) => CreateIntent(t, o, rate, intent).0
    case ReportTransfer(user, id, service, reference) => Report(t, user, id, service, reference).0
    case Deliver(d) => Process(t, d).0
    case ReviewPayment(id, decision, reason) => Review(t, id, decision, reason).0
    case ReconcilePayments(pollable, answers) => Reconcile(t, pollable, answers)
    case ActivateCredit(user, id) => (match Activate(t, user, id) case Ok(subs) => t.(subs := subs) case Err(_) => t)
    case Sweep => t.(subs := Swept(t.plans, t.subs, t.clock))
    case SendReminders => Remind(t)
  }

  function Run(t: Tables, ops: seq<Op>): Tables {
    if ops == [] then t else Apply(Run(t, ops[..|ops| - 1]), ops[|ops| - 1])
  }

  /** Nothing sold yet; payments older than the subscription model may be there, in any state. */
  ghost predicate Init(t: Tables) {
    && t.subs == [] && t.reminders == []
    && ReferencesUnique(t.payments) && AmountsOk(t.payments)
    && forall i | 0 <= i < |t.payments| :: Owed(t.payments[i]) == 0
  }

  ghost predicate Reachable(t: Tables) {
    exists t0: Tables, ops: seq<Op> :: Init(t0) && t == Run(t0, ops)
  }

  lemma SubsOpKeeps(t: Tables, op: Op)
    requires Inv(t) && (op.ActivateCredit? || op.Sweep?)
    ensures Inv(Apply(t, op))
  {
    var subs' := Apply(t, op).subs;
    if op.Sweep? {
      SweepKeeps(t.plans, t.clock, t.subs);
    } else if Activate(t, op.user, op.id).Ok? {
      ActivateKeeps(t.plans, t.clock, t.subs, op.id);
    }
    SubsStepKeeps(t.payments, t.subs, subs');
  }

  lemma ApplyKeeps(t: Tables, op: Op)
    requires Inv(t)
    ensures Inv(Apply(t, op))
  {
    match op
    case Tick(ms) => TickOpKeeps(t, ms);
    case Buy(o, rate, intent) => CreateIntentKeeps(t, o, rate, intent);
    case ReportTransfer(user, id, service, reference) => ReportKeeps(t, user, id, service, reference);
    case Deliver(d) => ProcessKeeps(t, d);
    case ReviewPayment(id, decision, reason) => ReviewKeeps(t, id, decision, reason);
    case ReconcilePayments(pollable, answers) => ReconcileKeeps(t, pollable, answers);
    case ActivateCredit(_, _) => SubsOpKeeps(t, op);
    case Sweep => SubsOpKeeps(t, op);
    case SendReminders => assert Inv(Remind(t));
  }

  lemma TickOpKeeps(t: Tables, ms: nat)
    requires Inv(t)
    ensures Inv(t.(clock := t.clock + ms))
  {
    TickKeeps(t.plans, t.clock, t.clock + ms, t.subs);
  }

  lemma InitInv(t: Tables)
    requires Init(t)
    ensures Inv(t)
  {
    NothingOwed(t.payments);
  }

  lemma {:induction false} NothingOwed(payments: seq<Payment>)
    requires forall i | 0 <= i < |payments| :: Owed(payments[i]) == 0
    ensures TotalOwed(payments) == 0
    decreases |payments|
  {
    if payments != [] {
      NothingOwed(payments[..|payments| - 1]);
    }
  }

  lemma {:induction false} RunKeeps(t: Tables, ops: seq<Op>)
    requires Init(t)
    ensures Inv(Run(t, ops))
    decreases |ops|
  {
    if ops == [] {
      InitInv(t);
    } else {
      RunKeeps(t, ops[..|ops| - 1]);
      ApplyKeeps(Run(t, ops[..|ops| - 1]), ops[|ops| - 1]);
    }
  }
}
