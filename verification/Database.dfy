/** The tables behind subscriptions and payments. Row ids are positions; rows are never deleted. */
module Database {
  import opened Wrappers
  import opened Vat

  // One clock, in milliseconds; days have a fixed length.
  const MINUTE_MS: int := 60_000
  const DAY_MS: int := 86_400_000

  type UserId = nat
  type RowId = nat

  datatype PlanCode = Day | Month | Year

  datatype RawPlan = Plan(priceUsd: real, durationDays: int, onSale: bool)
  // NUMERIC(10,2) and the CHECK constraints of subscription_plans.
  type Plan = p: RawPlan | p.priceUsd >= 0.0 && WholeCents(p.priceUsd) && p.durationDays > 0 witness Plan(0.0, 1, true)

  type PlanTable = map<PlanCode, Plan>

  datatype SubscriptionStatus = Ready | Active | Queued | Expired | Cancelled

  datatype Subscription = Subscription(
    user: UserId,
    plan: PlanCode,
    payment: RowId,
    status: SubscriptionStatus,
    activatedAt: Option<int>,
    startsAt: Option<int>,
    expiresAt: Option<int>)

  datatype PaymentStatus = Pending | AwaitingProvider | Confirmed | Rejected | Expired | Disputed

  datatype Payment = Payment(
    planner: UserId,
    plan: Option<PlanCode>,   // null on payments older than the subscription model
    quantity: nat,
    subtotalUsd: real,
    vatRate: real,
    vatUsd: real,
    amountUsd: real,
    currency: string,
    provider: string,
    providerRef: Option<string>,
    status: PaymentStatus,
    transferService: Option<string>,
    referenceCode: Option<string>,
    rejectionReason: Option<string>,
    intentExpiresAt: Option<int>,
    createdAt: int)

  datatype WebhookOutcome =
    RecordedUnknownProvider | BadSignature | Unparseable | PaymentNotFound
    | AmountMismatch | AlreadyConfirmed | NotPaid | WebhookConfirmed

  datatype WebhookEvent = WebhookEvent(
    provider: string,
    signatureOk: bool,
    providerRef: Option<string>,
    payment: Option<RowId>,
    processed: Option<WebhookOutcome>)

  // A subscription_expiring notification: what the next run deduplicates on.
  datatype Reminder = Reminder(subscription: RowId, days: int)

  datatype Tables = Tables(
    clock: int,
    plans: PlanTable,
    payments: seq<Payment>,
    subs: seq<Subscription>,
    events: seq<WebhookEvent>,
    reminders: seq<Reminder>)

  class Database {
    var clock: int
    const plans: PlanTable
    var payments: seq<Payment>
    var subs: seq<Subscription>
    var events: seq<WebhookEvent>
    var reminders: seq<Reminder>

    constructor (plans: PlanTable, payments: seq<Payment>, now: int)
      ensures View() == Tables(now, plans, payments, [], [], [])
    {
      this.plans, this.payments, clock := plans, payments, now;
      subs, events, reminders := [], [], [];
    }

    ghost function View(): Tables
      reads this
    {
      Tables(clock, plans, payments, subs, events, reminders)
    }

    method Tick(ms: nat)
      modifies this`clock
      ensures clock == old(clock) + ms
    {
      clock := clock + ms;
    }

    /** INSERT, refused by the index one_active_sub_per_user. */
    method InsertSubscription(row: Subscription) returns (ok: bool)
      modifies this`subs
      ensures ok <==> !(row.status.Active? && HasActive(old(subs), row.user))
      ensures subs == if ok then old(subs) + [row] else old(subs)
    {
      ok := !(row.status.Active? && HasActive(subs, row.user));
      if ok {
        subs := subs + [row];
      }
    }

    /** UPDATE of one row that does not change its user, refused by the same index. */
    method UpdateSubscription(id: RowId, row: Subscription) returns (ok: bool)
      requires id < |subs| && row.user == subs[id].user
      modifies this`subs
      ensures ok <==> !(row.status.Active? && !old(subs)[id].status.Active? && HasActive(old(subs), row.user))
      ensures subs == if ok then old(subs)[id := row] else old(subs)
    {
      ok := !(row.status.Active? && !subs[id].status.Active? && HasActive(subs, row.user));
      if ok {
        subs := subs[id := row];
      }
    }
  }

  predicate HasActive(subs: seq<Subscription>, user: UserId) {
    exists i :: 0 <= i < |subs| && subs[i].user == user && subs[i].status.Active?
  }

  predicate HasQueued(subs: seq<Subscription>, user: UserId) {
    exists i :: 0 <= i < |subs| && subs[i].user == user && subs[i].status.Queued?
  }
}
