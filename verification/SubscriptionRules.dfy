/** What the subscription operations do to the tables. */
module SubscriptionRules {
  import opened Wrappers
  import opened Database

  datatype Error =
    NotFound | PlanNotFound | AlreadyRunning | NotReady(status: SubscriptionStatus) | WouldBeWasted(plan: PlanCode)
    | UniqueViolation

  function PlanMs(plans: PlanTable, code: PlanCode): nat {
    if code in plans then plans[code].durationDays * DAY_MS else 0
  }

  /** The user's active row. */
  function ActiveRow(subs: seq<Subscription>, user: UserId): (r: Option<RowId>)
    ensures r.Some? ==> r.value < |subs| && subs[r.value].user == user && subs[r.value].status.Active?
    ensures r.Some? <==> HasActive(subs, user)
  {
    if subs == [] then None
    else
      var r := ActiveRow(subs[..|subs| - 1], user);
      var last := subs[|subs| - 1];
      if r.Some? then r
      else if last.user == user && last.status.Active? then Some(|subs| - 1)
      else None
  }

  /** The time bought by the user's queued rows. */
  function QueuedMs(plans: PlanTable, subs: seq<Subscription>, user: UserId): nat {
    if subs == [] then 0
    else
      var last := subs[|subs| - 1];
      QueuedMs(plans, subs[..|subs| - 1], user)
      + if last.user == user && last.status.Queued? then PlanMs(plans, last.plan) else 0
  }

  /** Where the user's chain of periods runs out; None when there is no chain. */
  function ChainEnd(plans: PlanTable, clock: int, subs: seq<Subscription>, user: UserId): Option<int> {
    var active := ActiveRow(subs, user);
    if active.Some? && subs[active.value].expiresAt.Some? then
      Some(subs[active.value].expiresAt.value + QueuedMs(plans, subs, user))
    else if HasQueued(subs, user) then Some(clock + QueuedMs(plans, subs, user))
    else None
  }

  function CreditRow(user: UserId, plan: PlanCode, payment: RowId): Subscription {
    Subscription(user, plan, payment, Ready, None, None, None)
  }

  /** One period put at the end of the chain, or run at once when there is none. */
  function NextRow(plans: PlanTable, clock: int, chainEnd: Option<int>, user: UserId, plan: PlanCode,
      payment: RowId)
    : Subscription
  {
    var ms := PlanMs(plans, plan);
    if chainEnd.None? then Subscription(user, plan, payment, Active, None, Some(clock), Some(clock + ms))
    else Subscription(user, plan, payment, Queued, None, chainEnd, None)
  }

  /** The k-th period bought: back to back from the end of the chain, the first running at once if there is none. */
  function DatedRow(plans: PlanTable, clock: int, end: Option<int>, user: UserId, plan: PlanCode,
      payment: RowId, k: nat)
    : Subscription
  {
    var ms := PlanMs(plans, plan);
    if end.None? && k == 0 then Subscription(user, plan, payment, Active, None, Some(clock), Some(clock + ms))
    else Subscription(user, plan, payment, Queued, None,
                      Some((if end.Some? then end.value else clock) + k * ms), None)
  }

  function DatedRows(plans: PlanTable, clock: int, end: Option<int>, user: UserId, plan: PlanCode,
      payment: RowId, n: nat)
    : (rows: seq<Subscription>)
    ensures |rows| == n
    ensures forall r | r in rows :: r.user == user && r.plan == plan && r.payment == payment
  {
    if n == 0 then []
    else
      DatedRows(plans, clock, end, user, plan, payment, n - 1)
      + [DatedRow(plans, clock, end, user, plan, payment, n - 1)]
  }

  function CreditRows(user: UserId, payment: RowId, n: nat): (rows: seq<Subscription>)
    ensures |rows| == n
    ensures forall r | r in rows :: r.user == user && r.plan == Day && r.payment == payment
  {
    if n == 0 then [] else CreditRows(user, payment, n - 1) + [CreditRow(user, Day, payment)]
  }

  datatype Minted = Minted(rows: seq<Subscription>, alreadyMinted: bool)

  /** The rows a payment is turned into. */
  function Mint(t: Tables, id: RowId): Result<Minted, Error> {
    if id >= |t.payments| then Err(NotFound)
    else
      var p := t.payments[id];
      if p.plan.None? then Ok(Minted([], false))
      else if exists s :: s in t.subs && s.payment == id then Ok(Minted([], true))
      else if p.plan.value !in t.plans then Err(PlanNotFound)
      else if p.plan.value.Day? then
        Ok(Minted(CreditRows(p.planner, id, p.quantity), false))
      else
        var end := ChainEnd(t.plans, t.clock, t.subs, p.planner);
        Ok(Minted(DatedRows(t.plans, t.clock, end, p.planner, p.plan.value, id, p.quantity), false))
  }

  /** A running subscription: active and not past its expiry. */
  predicate Running(s: Subscription, clock: int) {
    s.status.Active? && s.expiresAt.Some? && s.expiresAt.value > clock
  }

  predicate HasAccess(subs: seq<Subscription>, user: UserId, clock: int) {
    exists i :: 0 <= i < |subs| && subs[i].user == user && Running(subs[i], clock)
  }

  /** The subscription access is decided on; the timestamp is checked, not the status alone. */
  function GetActiveSubscription(subs: seq<Subscription>, user: UserId, clock: int): (r: Option<RowId>)
    ensures r.Some? ==> r.value < |subs| && subs[r.value].user == user && Running(subs[r.value], clock)
    ensures r.Some? <==> HasAccess(subs, user, clock)
  {
    if subs == [] then None
    else
      var r := GetActiveSubscription(subs[..|subs| - 1], user, clock);
      var last := subs[|subs| - 1];
      if r.Some? then r
      else if last.user == user && Running(last, clock) then Some(|subs| - 1)
      else None
  }

  function Activated(plans: PlanTable, s: Subscription, clock: int): Subscription {
    s.(status := Active, activatedAt := Some(clock), startsAt := Some(clock),
       expiresAt := Some(clock + PlanMs(plans, s.plan)))
  }

  function Promoted(plans: PlanTable, s: Subscription, clock: int): Subscription {
    s.(status := Active, startsAt := Some(clock), expiresAt := Some(clock + PlanMs(plans, s.plan)))
  }

  /** A banked credit is started; the last check is the index on active rows. */
  function Activate(t: Tables, user: UserId, id: RowId): Result<seq<Subscription>, Error> {
    if id >= |t.subs| || t.subs[id].user != user then Err(NotFound)
    else
      var credit := t.subs[id];
      var running := GetActiveSubscription(t.subs, user, t.clock);
      if credit.status.Active? then Err(AlreadyRunning)
      else if !credit.status.Ready? then Err(NotReady(credit.status))
      else if running.Some? then Err(WouldBeWasted(t.subs[running.value].plan))
      else if credit.plan !in t.plans then Err(PlanNotFound)
      else if HasActive(t.subs, user) then Err(UniqueViolation)
      else Ok(t.subs[id := Activated(t.plans, credit, t.clock)])
  }

  predicate Lapsed(s: Subscription, clock: int) {
    s.status.Active? && s.expiresAt.Some? && s.expiresAt.value <= clock
  }

  function AfterExpiry(subs: seq<Subscription>, clock: int): (r: seq<Subscription>)
    ensures |r| == |subs|
  {
    seq(|subs|, i requires 0 <= i < |subs| =>
      if Lapsed(subs[i], clock) then subs[i].(status := SubscriptionStatus.Expired) else subs[i])
  }

  /** Row i is the oldest of its user's queue and nothing of theirs is active. */
  predicate NextInLine(subs: seq<Subscription>, i: nat)
    requires i < |subs|
  {
    && subs[i].status.Queued? && !HasActive(subs, subs[i].user)
    && forall j | 0 <= j < i :: !(subs[j].user == subs[i].user && subs[j].status.Queued?)
  }

  /** The oldest row of the user's queue. */
  function OldestQueued(subs: seq<Subscription>, user: UserId): (r: Option<RowId>)
    ensures r.Some? ==>
              && r.value < |subs| && subs[r.value].user == user && subs[r.value].status.Queued?
              && forall j | 0 <= j < r.value :: !(subs[j].user == user && subs[j].status.Queued?)
    ensures r.Some? <==> HasQueued(subs, user)
  {
    if subs == [] then None
    else
      var r := OldestQueued(subs[..|subs| - 1], user);
      var last := subs[|subs| - 1];
      if r.Some? then r
      else if last.user == user && last.status.Queued? then Some(|subs| - 1)
      else None
  }

  function AfterPromotion(plans: PlanTable, subs: seq<Subscription>, clock: int, users: set<UserId>)
    : (r: seq<Subscription>)
    ensures |r| == |subs|
  {
    seq(|subs|, i requires 0 <= i < |subs| =>
      if subs[i].user in users && NextInLine(subs, i) then Promoted(plans, subs[i], clock) else subs[i])
  }

  /** The users whose queue has nothing active ahead of it, lapsed or not. */
  function Waiting(subs: seq<Subscription>): set<UserId> {
    set i | 0 <= i < |subs| && subs[i].status.Queued? && !HasActive(subs, subs[i].user) :: subs[i].user
  }

  function Swept(plans: PlanTable, subs: seq<Subscription>, clock: int): seq<Subscription> {
    var after := AfterExpiry(subs, clock);
    AfterPromotion(plans, after, clock, Waiting(after))
  }

  // ---- Renewal reminders ----

  /** Days before expiry that are warned on, nearest first. */
  function Thresholds(plan: PlanCode): seq<int> {
    match plan
    case Year => [1, 7, 30]
    case Month => [3]
    case Day => []
  }

  function WholeDaysUntil(target: int, clock: int): int { -((clock - target) / DAY_MS) }

  /** The smallest threshold at or above the days remaining. */
  function Threshold(plan: PlanCode, daysLeft: int): (r: Option<int>)
    ensures r.Some? ==> r.value in Thresholds(plan) && daysLeft <= r.value
    ensures r.Some? ==> forall d | d in Thresholds(plan) && daysLeft <= d :: r.value <= d
    ensures r.None? ==> forall d | d in Thresholds(plan) :: d < daysLeft
  {
    var days := Thresholds(plan);
    if |days| >= 1 && daysLeft <= days[0] then Some(days[0])
    else if |days| >= 2 && daysLeft <= days[1] then Some(days[1])
    else if |days| >= 3 && daysLeft <= days[2] then Some(days[2])
    else None
  }

  /** The warning a row is in the window of. */
  function Warning(s: Subscription, clock: int): Option<int> {
    if Running(s, clock) then Threshold(s.plan, WholeDaysUntil(s.expiresAt.value, clock)) else None
  }

  /** Reminders not sent yet, for the first n rows. */
  function Due(t: Tables, n: nat): seq<Reminder>
    requires n <= |t.subs|
  {
    if n == 0 then []
    else
      var days := Warning(t.subs[n - 1], t.clock);
      Due(t, n - 1)
      + if days.Some? && Reminder(n - 1, days.value) !in t.reminders then [Reminder(n - 1, days.value)] else []
  }

  function Remind(t: Tables): Tables { t.(reminders := t.reminders + Due(t, |t.subs|)) }
}
