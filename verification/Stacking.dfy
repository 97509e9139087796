/** Where each period of a dated purchase is put, and when it starts if sweeps keep up. */
module Stacking {
  import opened Wrappers
  import opened Database
  import opened SubscriptionRules
  import opened SubscriptionInvariant
  import opened PaymentRules
  import opened LedgerInvariant
  import opened LedgerRuns
  import opened LedgerTheorems

  predicate IsQueued(s: Subscription, user: UserId) { s.user == user && s.status.Queued? }

  predicate IsActive(s: Subscription, user: UserId) { s.user == user && s.status.Active? }

  function LengthMs(plans: PlanTable, plan: PlanCode): int
    requires plan in plans
  {
    plans[plan].durationDays * 86_400_000
  }

  /** The step confirms payment id, which was not confirmed. */
  ghost predicate ConfirmsDated(t: Tables, op: Op, id: RowId) {
    && id < |t.payments| && !t.payments[id].status.Confirmed?
    && id < |Apply(t, op).payments| && Apply(t, op).payments[id].status.Confirmed?
    && t.payments[id].plan.Some? && !t.payments[id].plan.value.Day?
  }

  // ---- What a confirmation adds ----

  function RowsFor(t: Tables, p: Payment, id: RowId): seq<Subscription> {
    if p.plan.None? then []
    else if p.plan.value.Day? then CreditRows(p.planner, id, p.quantity)
    else
      DatedRows(t.plans, t.clock, ChainEnd(t.plans, t.clock, t.subs, p.planner), p.planner, p.plan.value, id,
          p.quantity)
  }

  lemma MintIs(t: Tables, id: RowId, p: Payment)
    requires Inv(t) && id < |t.payments| && !t.payments[id].status.Confirmed? && Confirm(t, id, p).Ok?
    ensures Confirm(t, id, p).value.0.subs == t.subs + RowsFor(t, p, id)
  {
    CountForNone(t.subs, id);
    assert CountFor(t.subs, id) == Owed(t.payments[id]);
  }

  /** Minting asked for on its own: nothing for an old payment, nothing twice, and else a row for each one bought. */
  lemma MintIsAnswered(t: Tables, id: RowId)
    ensures var r := Mint(t, id);
            && (r == Err(NotFound) <==> id >= |t.payments|)
            && (id < |t.payments| ==>
                  var p := t.payments[id];
                  if p.plan.None? then r == Ok(Minted([], false))
                  else if exists i :: 0 <= i < |t.subs| && t.subs[i].payment == id then r == Ok(Minted([], true))
                  else if p.plan.value !in t.plans then r == Err(PlanNotFound)
                  else
                    && r.Ok? && !r.value.alreadyMinted && |r.value.rows| == p.quantity
                    && forall s | s in r.value.rows ::
                         s.user == p.planner && s.plan == p.plan.value && s.payment == id)
  {
    if i :| 0 <= i < |t.subs| && t.subs[i].payment == id {
      assert t.subs[i] in t.subs;
    }
  }

  lemma ConfirmationAdds(t: Tables, op: Op, id: RowId)
    requires Reachable(t) && id < |t.payments| && !t.payments[id].status.Confirmed?
    requires id < |Apply(t, op).payments| && Apply(t, op).payments[id].status.Confirmed?
    ensures Apply(t, op).subs == t.subs + RowsFor(t, t.payments[id], id)
    ensures Inv(t) && CanMint(t, t.payments[id])
  {
    ReachableInv(t);
    OnlyTheseConfirm(t, op, id);
    if op.Deliver? {
      ConfirmedByVerdict(t, op.delivery, id);
      DeliveryMints(t, op.delivery, id);
    } else {
      ReviewMints(t, id, op.reason);
    }
  }

  /** The first of the rows a dated purchase adds. */
  lemma FirstAdded(t: Tables, op: Op, id: RowId)
    requires Reachable(t) && ConfirmsDated(t, op, id) && t.payments[id].quantity > 0
    ensures Inv(t) && t.payments[id].plan.value in t.plans && |RowsFor(t, t.payments[id], id)| > 0
    ensures |t.subs| < |Apply(t, op).subs| && Apply(t, op).subs[|t.subs|] == RowsFor(t, t.payments[id], id)[0]
  {
    ConfirmationAdds(t, op, id);
  }

  lemma DeliveryMints(t: Tables, d: Delivery, id: RowId)
    requires Inv(t) && id < |t.payments| && !t.payments[id].status.Confirmed?
    requires Verdict(t, d) == (WebhookConfirmed, Some(id)) && Process(t, d).0.payments[id].status.Confirmed?
    ensures Process(t, d).0.subs == t.subs + RowsFor(t, t.payments[id], id)
  {
    var done := t.(events := Process(t, d).0.events);
    MintIs(done, id, t.payments[id].(status := Confirmed));
  }

  lemma ReviewMints(t: Tables, id: RowId, reason: Option<string>)
    requires Inv(t) && id < |t.payments| && !t.payments[id].status.Confirmed?
    requires Review(t, id, Confirming, reason).0.payments[id].status.Confirmed?
    ensures Review(t, id, Confirming, reason).0.subs == t.subs + RowsFor(t, t.payments[id], id)
  {
    MintIs(t, id, t.payments[id].(rejectionReason := reason, status := Confirmed));
  }

  lemma {:induction false} DatedRowAt(plans: PlanTable, clock: int, end: Option<int>, user: UserId, plan: PlanCode,
                                      payment: RowId, n: nat, k: nat)
    requires k < n
    ensures DatedRows(plans, clock, end, user, plan, payment, n)[k]
        == DatedRow(plans, clock, end, user, plan, payment, k)
    decreases n
  {
    if k < n - 1 {
      DatedRowAt(plans, clock, end, user, plan, payment, n - 1, k);
    }
  }

  lemma {:induction false} CreditRowAt(user: UserId, payment: RowId, n: nat, k: nat)
    requires k < n
    ensures CreditRows(user, payment, n)[k] == CreditRow(user, Day, payment)
    decreases n
  {
    if k < n - 1 {
      CreditRowAt(user, payment, n - 1, k);
    }
  }

  /** Every credit of a day pass purchase is banked, without any date. */
  lemma CreditsAreBanked(t: Tables, op: Op, id: RowId, k: nat)
    requires Reachable(t) && id < |t.payments| && !t.payments[id].status.Confirmed?
    requires id < |Apply(t, op).payments| && Apply(t, op).payments[id].status.Confirmed?
    requires t.payments[id].plan == Some(Day) && k < t.payments[id].quantity
    ensures var subs, n := Apply(t, op).subs, |t.subs|;
            && |subs| == n + t.payments[id].quantity && subs[..n] == t.subs
            && subs[n + k] == Subscription(t.payments[id].planner, Day, id, Ready, None, None, None)
  {
    ConfirmationAdds(t, op, id);
    CreditRowAt(t.payments[id].planner, id, t.payments[id].quantity, k);
  }

  /**
   * The row is the k-th of those bought with payment id, the first of which is given: each starts
   * where the one before ends.
   */
  predicate KthPeriod(plans: PlanTable, p: Payment, id: RowId, first: Subscription, s: Subscription, k: nat) {
    && p.plan.Some? && p.plan.value in plans
    && s.user == p.planner && s.plan == p.plan.value && s.payment == id && s.activatedAt.None?
    && first.startsAt.Some? && s.startsAt == Some(first.startsAt.value + k * LengthMs(plans, p.plan.value))
    && (k > 0 ==> s.status.Queued? && s.expiresAt.None?)
  }

  /** A dated purchase adds as many periods as were bought, back to back. */
  lemma PeriodsAreBackToBack(t: Tables, op: Op, id: RowId, k: nat)
    requires Reachable(t) && ConfirmsDated(t, op, id) && k < t.payments[id].quantity
    ensures var subs, n, p := Apply(t, op).subs, |t.subs|, t.payments[id];
            && |subs| == n + p.quantity && subs[..n] == t.subs
            && KthPeriod(t.plans, p, id, subs[n], subs[n + k], k)
  {
    ConfirmationAdds(t, op, id);
    RowsAreBackToBack(t, id, t.payments[id], k);
  }

  lemma RowsAreBackToBack(t: Tables, id: RowId, p: Payment, k: nat)
    requires p.plan.Some? && !p.plan.value.Day? && p.plan.value in t.plans && k < p.quantity
    ensures |RowsFor(t, p, id)| == p.quantity
    ensures KthPeriod(t.plans, p, id, RowsFor(t, p, id)[0], RowsFor(t, p, id)[k], k)
  {
    var end := ChainEnd(t.plans, t.clock, t.subs, p.planner);
    DatedRowAt(t.plans, t.clock, end, p.planner, p.plan.value, id, p.quantity, k);
    DatedRowAt(t.plans, t.clock, end, p.planner, p.plan.value, id, p.quantity, 0);
  }

  /** The row runs from now for the length of its plan. */
  predicate RunsFromNow(plans: PlanTable, clock: int, s: Subscription) {
    && s.plan in plans && s.status.Active? && s.startsAt == Some(clock)
    && s.expiresAt == Some(clock + LengthMs(plans, s.plan))
  }

  /** With nothing running and nothing waiting, the first period runs from now. */
  lemma FirstPeriodRuns(t: Tables, op: Op, id: RowId)
    requires Reachable(t) && ConfirmsDated(t, op, id) && t.payments[id].quantity > 0
    requires forall s | s in t.subs && s.user == t.payments[id].planner :: !s.status.Active? && !s.status.Queued?
    ensures |t.subs| < |Apply(t, op).subs| && RunsFromNow(t.plans, t.clock, Apply(t, op).subs[|t.subs|])
  {
    RunsAtOnce(t, id, t.payments[id]);
    FirstAdded(t, op, id);
  }

  lemma RunsAtOnce(t: Tables, id: RowId, p: Payment)
    requires p.plan.Some? && !p.plan.value.Day? && p.quantity > 0
    requires forall s | s in t.subs && s.user == p.planner :: !s.status.Active? && !s.status.Queued?
    ensures |RowsFor(t, p, id)| > 0
    ensures p.plan.value in t.plans ==> RunsFromNow(t.plans, t.clock, RowsFor(t, p, id)[0])
  {
    NoChain(t.subs, p.planner);
    DatedRowAt(t.plans, t.clock, None, p.planner, p.plan.value, id, p.quantity, 0);
  }

  lemma NoChain(subs: seq<Subscription>, user: UserId)
    requires forall s | s in subs && s.user == user :: !s.status.Active? && !s.status.Queued?
    ensures !HasActive(subs, user) && !HasQueued(subs, user)
  {
    assert forall i | 0 <= i < |subs| :: subs[i] in subs;
  }

  /** With a period running, lapsed or not, and nothing waiting, it is put exactly at that period's expiry. */
  lemma FirstPeriodFollowsActive(t: Tables, op: Op, id: RowId, a: RowId)
    requires Reachable(t) && ConfirmsDated(t, op, id) && t.payments[id].quantity > 0
    requires a < |t.subs| && IsActive(t.subs[a], t.payments[id].planner)
    requires forall s | s in t.subs :: !IsQueued(s, t.payments[id].planner)
    ensures var subs, n := Apply(t, op).subs, |t.subs|;
            n < |subs| && subs[n].status.Queued? && subs[n].startsAt == t.subs[a].expiresAt && subs[n].expiresAt.None?
  {
    FirstAdded(t, op, id);
    WaitsForActive(t, id, t.payments[id], a);
  }

  lemma WaitsForActive(t: Tables, id: RowId, p: Payment, a: RowId)
    requires Inv(t) && p.plan.Some? && !p.plan.value.Day? && p.quantity > 0
    requires a < |t.subs| && IsActive(t.subs[a], p.planner) && forall s | s in t.subs :: !IsQueued(s, p.planner)
    ensures var rows := RowsFor(t, p, id);
            |rows| > 0 && rows[0].status.Queued? && rows[0].startsAt == t.subs[a].expiresAt && rows[0].expiresAt.None?
  {
    ChainEndsWithActive(t.plans, t.clock, t.subs, p.planner, a);
    DatedRowAt(t.plans, t.clock, t.subs[a].expiresAt, p.planner, p.plan.value, id, p.quantity, 0);
  }

  lemma ChainEndsWithActive(plans: PlanTable, clock: int, subs: seq<Subscription>, user: UserId, a: RowId)
    requires RowsOk(plans, clock, subs) && OneActive(subs) && a < |subs| && IsActive(subs[a], user)
    requires forall s | s in subs :: !IsQueued(s, user)
    ensures subs[a].expiresAt.Some? && ChainEnd(plans, clock, subs, user) == subs[a].expiresAt
  {
    assert forall i | 0 <= i < |subs| :: subs[i] in subs;
    OnlyActive(subs, a);
    assert RowOk(plans, clock, subs[a]);
    NothingAhead(plans, subs, |subs|, user);
    assert subs[..|subs|] == subs;
  }

  lemma OnlyActive(subs: seq<Subscription>, a: RowId)
    requires OneActive(subs) && a < |subs| && subs[a].status.Active?
    ensures ActiveRow(subs, subs[a].user) == Some(a)
  {
    assert HasActive(subs, subs[a].user);
  }

  /** Behind a chain, the first period is put where everything ahead of it runs out. */
  lemma WaitsItsTurn(t: Tables, id: RowId, p: Payment)
    requires Inv(t) && p.plan.Some? && !p.plan.value.Day? && p.quantity > 0
    requires HasActive(t.subs, p.planner) || HasQueued(t.subs, p.planner)
    ensures var rows := RowsFor(t, p, id);
            && |rows| > 0 && rows[0].status.Queued? && rows[0].expiresAt.None?
            && rows[0].startsAt == Some(ChainStart(t.clock, t.subs, p.planner) + QueuedMs(t.plans, t.subs, p.planner))
  {
    ChainEndIs(t.plans, t.clock, t.subs, p.planner);
    DatedRowAt(t.plans, t.clock, ChainEnd(t.plans, t.clock, t.subs, p.planner), p.planner, p.plan.value, id,
        p.quantity, 0);
  }

  // ---- The whole queue is ahead ----

  function QueuedOf(subs: seq<Subscription>, user: UserId, plan: PlanCode): set<RowId> {
    set i: RowId | i < |subs| && IsQueued(subs[i], user) && subs[i].plan == plan
  }

  function TimeOf(plans: PlanTable, subs: seq<Subscription>, user: UserId, plan: PlanCode): int {
    if plan in plans then |QueuedOf(subs, user, plan)| * LengthMs(plans, plan) else 0
  }

  /** So many days, months and years are waiting. */
  function WaitingTime(plans: PlanTable, subs: seq<Subscription>, user: UserId): int {
    TimeOf(plans, subs, user, Day) + TimeOf(plans, subs, user, Month) + TimeOf(plans, subs, user, Year)
  }

  lemma OneRowMore(subs: seq<Subscription>, row: Subscription, user: UserId, plan: PlanCode)
    ensures |QueuedOf(subs + [row], user, plan)|
            == |QueuedOf(subs, user, plan)| + if IsQueued(row, user) && row.plan == plan then 1 else 0
  {
    assert QueuedOf(subs + [row], user, plan)
           == QueuedOf(subs, user, plan) + if IsQueued(row, user) && row.plan == plan then {|subs|} else {};
  }

  lemma OneMoreOf(plans: PlanTable, subs: seq<Subscription>, row: Subscription, user: UserId, plan: PlanCode)
    ensures TimeOf(plans, subs + [row], user, plan)
            == TimeOf(plans, subs, user, plan) + if IsQueued(row, user) && row.plan == plan
                then PlanMs(plans, plan) else 0
  {
    OneRowMore(subs, row, user, plan);
    if plan in plans {
      AddOne(|QueuedOf(subs, user, plan)|, LengthMs(plans, plan));
    }
  }

  lemma AddOne(n: int, ms: int)
    ensures (n + 1) * ms == n * ms + ms
  {
  }

  lemma {:induction false} QueuedMsIs(plans: PlanTable, subs: seq<Subscription>, user: UserId)
    ensures QueuedMs(plans, subs, user) == WaitingTime(plans, subs, user)
    decreases |subs|
  {
    if subs == [] {
      assert forall plan :: QueuedOf(subs, user, plan) == {};
    } else {
      var init, row := subs[..|subs| - 1], subs[|subs| - 1];
      assert subs == init + [row];
      QueuedMsIs(plans, init, user);
      OneMoreOf(plans, init, row, user, Day);
      OneMoreOf(plans, init, row, user, Month);
      OneMoreOf(plans, init, row, user, Year);
    }
  }

  /** The row starts once the active one is over and everything its user has waiting has run. */
  ghost predicate BehindAll(t: Tables, active: Subscription, row: Subscription) {
    && row.status.Queued? && row.expiresAt.None? && active.expiresAt.Some?
    && row.startsAt == Some(active.expiresAt.value + WaitingTime(t.plans, t.subs, active.user))
  }

  /** Whatever starts are projected for the rows ahead, the first period is put behind all of them. */
  lemma FirstPeriodFollowsAll(t: Tables, op: Op, id: RowId, a: RowId)
    requires Reachable(t) && ConfirmsDated(t, op, id) && t.payments[id].quantity > 0
    requires a < |t.subs| && IsActive(t.subs[a], t.payments[id].planner)
    ensures |t.subs| < |Apply(t, op).subs| && BehindAll(t, t.subs[a], Apply(t, op).subs[|t.subs|])
  {
    FirstAdded(t, op, id);
    WaitsForAll(t, id, t.payments[id], a);
  }

  lemma WaitsForAll(t: Tables, id: RowId, p: Payment, a: RowId)
    requires Inv(t) && p.plan.Some? && !p.plan.value.Day? && p.quantity > 0
    requires a < |t.subs| && IsActive(t.subs[a], p.planner)
    ensures |RowsFor(t, p, id)| > 0 && BehindAll(t, t.subs[a], RowsFor(t, p, id)[0])
  {
    assert HasActive(t.subs, p.planner);
    OnlyActive(t.subs, a);
    assert RowOk(t.plans, t.clock, t.subs[a]);
    WaitsItsTurn(t, id, p);
    QueuedMsIs(t.plans, t.subs, p.planner);
  }

  // ---- No queue without an active row ----

  ghost predicate Led(subs: seq<Subscription>) {
    forall user: UserId | HasQueued(subs, user) :: HasActive(subs, user)
  }

  lemma AppendIsLed(subs: seq<Subscription>, rows: seq<Subscription>, user: UserId)
    requires Led(subs) && forall r | r in rows :: r.user == user
    requires rows != [] && !HasActive(subs, user) ==> rows[0].status.Active? || forall r | r in rows ::
        !r.status.Queued?
    ensures Led(subs + rows)
  {
    forall u: UserId | HasQueued(subs + rows, u)
      ensures HasActive(subs + rows, u)
    {
      var i :| 0 <= i < |subs + rows| && (subs + rows)[i].user == u && (subs + rows)[i].status.Queued?;
      if HasActive(subs, u) {
        var a :| 0 <= a < |subs| && subs[a].user == u && subs[a].status.Active?;
        assert (subs + rows)[a] == subs[a];
      } else {
        assert i >= |subs| && rows[i - |subs|] in rows;
        assert (subs + rows)[|subs|] == rows[0] && rows[0] in rows;
      }
    }
  }

  lemma MintedIsLed(t: Tables, id: RowId, p: Payment)
    requires Led(t.subs) && Inv(t) && CanMint(t, p)
    ensures Led(t.subs + RowsFor(t, p, id))
  {
    var rows := RowsFor(t, p, id);
    if p.plan.Some? && p.plan.value.Day? {
      forall r | r in rows
        ensures r.status.Ready?
      {
        var k :| 0 <= k < |rows| && rows[k] == r;
        CreditRowAt(p.planner, id, p.quantity, k);
      }
    } else if p.plan.Some? && p.quantity > 0 && !HasActive(t.subs, p.planner) {
      ChainEndIs(t.plans, t.clock, t.subs, p.planner);
      DatedRowAt(t.plans, t.clock, None, p.planner, p.plan.value, id, p.quantity, 0);
    }
    AppendIsLed(t.subs, rows, p.planner);
  }

  lemma StepIsLed(t: Tables, op: Op)
    requires Reachable(t) && Led(t.subs)
    ensures Led(Apply(t, op).subs)
  {
    ReachableInv(t);
    match op
    case Sweep =>
      forall user: UserId
        ensures HasQueued(Apply(t, op).subs, user) ==> HasActive(Apply(t, op).subs, user)
      {
        QueueAfterSweep(t, user);
      }
    case ActivateCredit(user, id) => ActivatedIsLed(t, user, id);
    case Deliver(d) => DeliveredIsLed(t, d);
    case ReviewPayment(id, decision, reason) => ReviewedIsLed(t, id, decision, reason);
    case _ =>
  }

  lemma ActivatedIsLed(t: Tables, user: UserId, id: RowId)
    requires Led(t.subs)
    ensures Led(Apply(t, ActivateCredit(user, id)).subs)
  {
    var subs' := Apply(t, ActivateCredit(user, id)).subs;
    forall u: UserId | HasQueued(subs', u)
      ensures HasActive(subs', u)
    {
      var i :| 0 <= i < |subs'| && subs'[i].user == u && subs'[i].status.Queued?;
      assert subs'[i] == t.subs[i];
      assert HasQueued(t.subs, u) && HasActive(t.subs, u);
      var a :| 0 <= a < |t.subs| && t.subs[a].user == u && t.subs[a].status.Active?;
      assert subs'[a] == t.subs[a];
    }
  }

  lemma DeliveredIsLed(t: Tables, d: Delivery)
    requires Inv(t) && Led(t.subs)
    ensures Led(Process(t, d).0.subs)
  {
    var (outcome, id) := Verdict(t, d);
    if outcome.WebhookConfirmed? && Process(t, d).1.Ok? {
      VerdictMints(t, d, id.value);
      DeliveryMints(t, d, id.value);
      MintedIsLed(t, id.value, t.payments[id.value]);
    }
  }

  lemma ReviewedIsLed(t: Tables, id: RowId, decision: Decision, reason: Option<string>)
    requires Inv(t) && Led(t.subs)
    ensures Led(Review(t, id, decision, reason).0.subs)
  {
    if Review(t, id, decision, reason).1.Ok? && decision.Confirming? {
      ReviewMints(t, id, reason);
      MintedIsLed(t, id, t.payments[id]);
    }
  }

  /** Nobody waits behind nothing: a user with a queue has an active row, so there is always an expiry to count from. */
  lemma {:induction false} QueuesAreLed(t0: Tables, ops: seq<Op>, user: UserId)
    requires Init(t0)
    ensures Led(Run(t0, ops).subs)
    ensures HasQueued(Run(t0, ops).subs, user) ==> HasActive(Run(t0, ops).subs, user)
    decreases |ops|
  {
    if ops != [] {
      QueuesAreLed(t0, ops[..|ops| - 1], user);
      StepIsLed(Run(t0, ops[..|ops| - 1]), ops[|ops| - 1]);
    }
  }

  // ---- Exact chains ----

  /** Row j is the last waiting row of the user before i. */
  ghost predicate Before(subs: seq<Subscription>, user: UserId, j: RowId, i: RowId)
    requires j < i <= |subs|
  {
    IsQueued(subs[j], user) && forall k | j < k < i :: !IsQueued(subs[k], user)
  }

  ghost predicate NoneBefore(subs: seq<Subscription>, user: UserId, i: RowId)
    requires i <= |subs|
  {
    forall k | 0 <= k < i :: !IsQueued(subs[k], user)
  }

  /** Row i is projected to start where what is right ahead of it ends. */
  ghost predicate FollowsOn(plans: PlanTable, subs: seq<Subscription>, user: UserId, i: RowId)
    requires i < |subs|
  {
    && subs[i].startsAt.Some?
    && (NoneBefore(subs, user, i) ==> exists a ::
        0 <= a < |subs| && IsActive(subs[a], user) && subs[a].expiresAt == subs[i].startsAt)
    && (forall j: RowId | j < i && Before(subs, user, j, i) ::
          && subs[j].startsAt.Some? && subs[j].plan in plans
          && subs[i].startsAt.value == subs[j].startsAt.value + LengthMs(plans, subs[j].plan))
  }

  /** The user's waiting rows follow one another, and the first of them the active row, without a gap. */
  ghost predicate ChainExact(plans: PlanTable, subs: seq<Subscription>, user: UserId) {
    && (HasQueued(subs, user) ==> HasActive(subs, user))
    && forall i: RowId | i < |subs| && IsQueued(subs[i], user) :: FollowsOn(plans, subs, user, i)
  }

  /** The same, counted from the start of the chain. */
  ghost predicate StartsExactly(plans: PlanTable, clock: int, subs: seq<Subscription>, user: UserId, i: RowId)
    requires i < |subs|
  {
    subs[i].startsAt == Some(ChainStart(clock, subs, user) + QueuedMs(plans, subs[..i], user))
  }

  lemma {:induction false} QueuedMsGap(plans: PlanTable, subs: seq<Subscription>, user: UserId, j: RowId, i: RowId)
    requires j < i <= |subs| && Before(subs, user, j, i)
    ensures QueuedMs(plans, subs[..i], user) == QueuedMs(plans, subs[..j], user) + PlanMs(plans, subs[j].plan)
    decreases i
  {
    assert subs[..i][..i - 1] == subs[..i - 1];
    if j < i - 1 {
      QueuedMsGap(plans, subs, user, j, i - 1);
    }
  }

  lemma {:induction false} FindBefore(subs: seq<Subscription>, user: UserId, i: RowId) returns (j: Option<RowId>)
    requires i <= |subs|
    ensures j.None? ==> NoneBefore(subs, user, i)
    ensures j.Some? ==> j.value < i && Before(subs, user, j.value, i)
    decreases i
  {
    if i == 0 {
      j := None;
    } else if IsQueued(subs[i - 1], user) {
      j := Some(i - 1);
    } else {
      j := FindBefore(subs, user, i - 1);
    }
  }

  lemma {:induction false} ExactFromChain(plans: PlanTable, clock: int, subs: seq<Subscription>, user: UserId, i: RowId)
    requires RowsOk(plans, clock, subs) && OneActive(subs) && ChainExact(plans, subs, user)
    requires i < |subs| && IsQueued(subs[i], user)
    ensures StartsExactly(plans, clock, subs, user, i)
    decreases i
  {
    assert FollowsOn(plans, subs, user, i);
    var j := FindBefore(subs, user, i);
    if j.Some? {
      ExactFromChain(plans, clock, subs, user, j.value);
      NextIsExact(plans, clock, subs, user, j.value, i);
    } else {
      FirstIsExact(plans, clock, subs, user, i);
    }
  }

  lemma NextIsExact(plans: PlanTable, clock: int, subs: seq<Subscription>, user: UserId, j: RowId, i: RowId)
    requires j < i < |subs| && Before(subs, user, j, i) && FollowsOn(plans, subs, user, i)
    requires StartsExactly(plans, clock, subs, user, j)
    ensures StartsExactly(plans, clock, subs, user, i)
  {
    QueuedMsGap(plans, subs, user, j, i);
  }

  lemma FirstIsExact(plans: PlanTable, clock: int, subs: seq<Subscription>, user: UserId, i: RowId)
    requires RowsOk(plans, clock, subs) && OneActive(subs) && i < |subs| && IsQueued(subs[i], user)
    requires NoneBefore(subs, user, i) && FollowsOn(plans, subs, user, i)
    ensures StartsExactly(plans, clock, subs, user, i)
  {
    NothingAhead(plans, subs, i, user);
    var a :| 0 <= a < |subs| && IsActive(subs[a], user) && subs[a].expiresAt == subs[i].startsAt;
    OnlyActive(subs, a);
  }

  lemma ChainFromExact(plans: PlanTable, clock: int, subs: seq<Subscription>, user: UserId)
    requires RowsOk(plans, clock, subs) && (HasQueued(subs, user) ==> HasActive(subs, user))
    requires forall i: RowId | i < |subs| && IsQueued(subs[i], user) :: StartsExactly(plans, clock, subs, user, i)
    ensures ChainExact(plans, subs, user)
  {
    forall i: RowId | i < |subs| && IsQueued(subs[i], user)
      ensures FollowsOn(plans, subs, user, i)
    {
      RowFollowsOn(plans, clock, subs, user, i);
    }
  }

  lemma RowFollowsOn(plans: PlanTable, clock: int, subs: seq<Subscription>, user: UserId, i: RowId)
    requires RowsOk(plans, clock, subs) && (HasQueued(subs, user) ==> HasActive(subs, user))
    requires forall k: RowId | k < |subs| && IsQueued(subs[k], user) :: StartsExactly(plans, clock, subs, user, k)
    requires i < |subs| && IsQueued(subs[i], user)
    ensures FollowsOn(plans, subs, user, i)
  {
    assert StartsExactly(plans, clock, subs, user, i) && HasActive(subs, user);
    if NoneBefore(subs, user, i) {
      NothingAhead(plans, subs, i, user);
      var a := ActiveRow(subs, user).value;
      assert RowOk(plans, clock, subs[a]) && IsActive(subs[a], user);
    }
    forall j: RowId | j < i && Before(subs, user, j, i)
      ensures subs[j].startsAt.Some? && subs[j].plan in plans
      ensures subs[i].startsAt.value == subs[j].startsAt.value + LengthMs(plans, subs[j].plan)
    {
      assert RowOk(plans, clock, subs[j]) && StartsExactly(plans, clock, subs, user, j);
      QueuedMsGap(plans, subs, user, j, i);
    }
  }

  /** Behind an exact queue, the first period is put exactly where the last one waiting will end. */
  lemma FirstPeriodFollowsQueue(t: Tables, op: Op, id: RowId, last: RowId)
    requires Reachable(t) && ConfirmsDated(t, op, id) && t.payments[id].quantity > 0
    requires ChainExact(t.plans, t.subs, t.payments[id].planner)
    requires last < |t.subs| && Before(t.subs, t.payments[id].planner, last, |t.subs|)
    ensures var subs, n := Apply(t, op).subs, |t.subs|;
            && n < |subs| && subs[n].status.Queued? && subs[n].startsAt.Some? && subs[n].expiresAt.None?
            && t.subs[last].startsAt.Some? && t.subs[last].plan in t.plans
            && subs[n].startsAt.value == t.subs[last].startsAt.value + LengthMs(t.plans, t.subs[last].plan)
  {
    FirstAdded(t, op, id);
    WaitsForQueue(t, id, t.payments[id], last);
  }

  lemma WaitsForQueue(t: Tables, id: RowId, p: Payment, last: RowId)
    requires Inv(t) && p.plan.Some? && !p.plan.value.Day? && p.quantity > 0
    requires ChainExact(t.plans, t.subs, p.planner) && last < |t.subs| && Before(t.subs, p.planner, last, |t.subs|)
    ensures var rows := RowsFor(t, p, id);
            && |rows| > 0 && rows[0].status.Queued? && rows[0].startsAt.Some? && rows[0].expiresAt.None?
            && t.subs[last].startsAt.Some? && t.subs[last].plan in t.plans
            && rows[0].startsAt.value == t.subs[last].startsAt.value + LengthMs(t.plans, t.subs[last].plan)
  {
    assert HasQueued(t.subs, p.planner) && RowOk(t.plans, t.clock, t.subs[last]);
    ExactFromChain(t.plans, t.clock, t.subs, p.planner, last);
    QueuedMsGap(t.plans, t.subs, p.planner, last, |t.subs|);
    assert t.subs[..|t.subs|] == t.subs;
    WaitsItsTurn(t, id, p);
  }
}
