/** With a sweep exactly on every expiry, stacked periods start exactly when they were projected to. */
module PromptSweeps {
  import opened Wrappers
  import opened Database
  import opened SubscriptionRules
  import opened SubscriptionInvariant
  import opened PaymentRules
  import opened LedgerInvariant
  import opened LedgerRuns
  import opened LedgerTheorems
  import opened Stacking

  /** Time does not pass the user's expiry: whatever else happens then, a sweep has to come first. */
  ghost predicate Prompt(t: Tables, op: Op, user: UserId) {
    op.Tick? ==>
      forall s | s in t.subs && IsActive(s, user) :: s.expiresAt.Some? && t.clock + op.ms <= s.expiresAt.value
  }

  ghost predicate PromptRun(t: Tables, ops: seq<Op>, user: UserId) {
    forall k | 0 <= k < |ops| :: Prompt(Run(t, ops[..k]), ops[k], user)
  }

  ghost predicate NotLate(clock: int, subs: seq<Subscription>, user: UserId) {
    forall i | 0 <= i < |subs| && IsActive(subs[i], user) :: subs[i].expiresAt.Some? && clock <= subs[i].expiresAt.value
  }

  ghost predicate AllExact(plans: PlanTable, clock: int, subs: seq<Subscription>, user: UserId) {
    forall i: RowId | i < |subs| && IsQueued(subs[i], user) :: StartsExactly(plans, clock, subs, user, i)
  }

  ghost predicate OnSchedule(plans: PlanTable, clock: int, subs: seq<Subscription>, user: UserId) {
    && NotLate(clock, subs, user) && (HasQueued(subs, user) ==> HasActive(subs, user))
    && AllExact(plans, clock, subs, user)
  }

  ghost predicate Scheduled(t: Tables, user: UserId) { OnSchedule(t.plans, t.clock, t.subs, user) }

  // ---- A row is inserted ----

  /** A row of somebody else's, or a banked credit. */
  lemma OtherRowKeeps(plans: PlanTable, clock: int, subs: seq<Subscription>, row: Subscription, user: UserId)
    requires OnSchedule(plans, clock, subs, user) && (row.user != user || row.status.Ready?)
    ensures OnSchedule(plans, clock, subs + [row], user)
  {
    var subs' := subs + [row];
    Extended(plans, clock, subs, row, user);
    forall i: RowId | i < |subs'| && IsQueued(subs'[i], user)
      ensures StartsExactly(plans, clock, subs', user, i)
    {
      assert IsQueued(subs[i], user) && StartsExactly(plans, clock, subs, user, i);
      OldRowExact(plans, clock, subs, row, user, i);
    }
    SameHasActive(subs, row, user);
  }

  lemma OldRowExact(plans: PlanTable, clock: int, subs: seq<Subscription>, row: Subscription, user: UserId, i: RowId)
    requires row.user != user || row.status.Ready?
    requires i < |subs| && StartsExactly(plans, clock, subs, user, i)
    ensures StartsExactly(plans, clock, subs + [row], user, i)
  {
    Extended(plans, clock, subs, row, user);
    assert (subs + [row])[..i] == subs[..i];
  }

  lemma SameHasActive(subs: seq<Subscription>, row: Subscription, user: UserId)
    ensures HasActive(subs, user) ==> HasActive(subs + [row], user)
    ensures row.user == user && row.status.Active? ==> HasActive(subs + [row], user)
  {
    if HasActive(subs, user) {
      var i :| 0 <= i < |subs| && subs[i].user == user && subs[i].status.Active?;
      assert (subs + [row])[i] == subs[i];
    } else if row.user == user && row.status.Active? {
      assert (subs + [row])[|subs|] == row;
    }
  }

  /** A period of the user's own that runs at once. */
  lemma RunningRowKeeps(plans: PlanTable, clock: int, subs: seq<Subscription>, row: Subscription)
    requires !HasQueued(subs, row.user) && NotLate(clock, subs, row.user)
    requires row.status.Active? && row.expiresAt.Some? && clock <= row.expiresAt.value
    ensures OnSchedule(plans, clock, subs + [row], row.user)
  {
    Extended(plans, clock, subs, row, row.user);
    NoQueueIsExact(plans, clock, subs + [row], row.user);
  }

  /** A period of the user's own that waits at the end of the chain. */
  lemma WaitingRowKeeps(plans: PlanTable, clock: int, subs: seq<Subscription>, row: Subscription)
    requires OnSchedule(plans, clock, subs, row.user) && HasActive(subs, row.user) && row.status.Queued?
    requires row.startsAt == Some(ChainStart(clock, subs, row.user) + QueuedMs(plans, subs, row.user))
    ensures OnSchedule(plans, clock, subs + [row], row.user)
  {
    var subs', user := subs + [row], row.user;
    SameHasActive(subs, row, user);
    forall i: RowId | i < |subs'| && IsQueued(subs'[i], user)
      ensures StartsExactly(plans, clock, subs', user, i)
    {
      AppendedExact(plans, clock, subs, row, i);
    }
  }

  lemma AppendedExact(plans: PlanTable, clock: int, subs: seq<Subscription>, row: Subscription, i: RowId)
    requires HasActive(subs, row.user) && i <= |subs|
    requires i < |subs| ==> StartsExactly(plans, clock, subs, row.user, i)
    requires row.startsAt == Some(ChainStart(clock, subs, row.user) + QueuedMs(plans, subs, row.user))
    ensures StartsExactly(plans, clock, subs + [row], row.user, i)
  {
    Extended(plans, clock, subs, row, row.user);
    if i < |subs| {
      assert (subs + [row])[..i] == subs[..i];
    } else {
      assert (subs + [row])[..i] == subs;
    }
  }

  lemma NoQueueIsExact(plans: PlanTable, clock: int, subs: seq<Subscription>, user: UserId)
    requires !HasQueued(subs, user)
    ensures AllExact(plans, clock, subs, user)
  {
  }

  lemma NextRowKeepsSchedule(plans: PlanTable, clock: int, subs: seq<Subscription>, row: Subscription)
    requires RowsOk(plans, clock, subs) && OnSchedule(plans, clock, subs, row.user)
    requires row == NextRow(plans, clock, ChainEnd(plans, clock, subs, row.user), row.user, row.plan, row.payment)
    ensures OnSchedule(plans, clock, subs + [row], row.user)
  {
    ChainEndIs(plans, clock, subs, row.user);
    if row.status.Active? {
      RunningRowKeeps(plans, clock, subs, row);
    } else {
      WaitingRowKeeps(plans, clock, subs, row);
    }
  }

  lemma {:induction false} DatedRowsKeepSchedule(plans: PlanTable, clock: int, subs: seq<Subscription>, owner: UserId,
                                                 plan: PlanCode, payment: RowId, n: nat, user: UserId)
    requires SubsInv(plans, clock, subs) && plan in plans && OnSchedule(plans, clock, subs, user)
    ensures var end := ChainEnd(plans, clock, subs, owner);
            OnSchedule(plans, clock, subs + DatedRows(plans, clock, end, owner, plan, payment, n), user)
    decreases n
  {
    var end := ChainEnd(plans, clock, subs, owner);
    if n == 0 {
      assert subs + DatedRows(plans, clock, end, owner, plan, payment, n) == subs;
    } else {
      var before := subs + DatedRows(plans, clock, end, owner, plan, payment, n - 1);
      var row := DatedRow(plans, clock, end, owner, plan, payment, n - 1);
      DatedRowsKeepSchedule(plans, clock, subs, owner, plan, payment, n - 1, user);
      DatedRowsKeep(plans, clock, subs, owner, plan, payment, n - 1);
      DatedIsNext(plans, clock, end, owner, plan, payment, n - 1);
      LastDatedRow(plans, clock, subs, end, owner, plan, payment, n);
      if owner == user {
        NextRowKeepsSchedule(plans, clock, before, row);
      } else {
        OtherRowKeeps(plans, clock, before, row, user);
      }
    }
  }

  lemma {:induction false} CreditRowsKeepSchedule(plans: PlanTable, clock: int, subs: seq<Subscription>, owner: UserId,
                                                  payment: RowId, n: nat, user: UserId)
    requires OnSchedule(plans, clock, subs, user)
    ensures OnSchedule(plans, clock, subs + CreditRows(owner, payment, n), user)
    decreases n
  {
    if n == 0 {
      assert subs + CreditRows(owner, payment, n) == subs;
    } else {
      var before := subs + CreditRows(owner, payment, n - 1);
      CreditRowsKeepSchedule(plans, clock, subs, owner, payment, n - 1, user);
      assert subs + CreditRows(owner, payment, n) == before + [CreditRow(owner, Day, payment)];
      OtherRowKeeps(plans, clock, before, CreditRow(owner, Day, payment), user);
    }
  }

  lemma MintKeepsSchedule(t: Tables, id: RowId, p: Payment, user: UserId)
    requires Inv(t) && Scheduled(t, user) && CanMint(t, p)
    ensures OnSchedule(t.plans, t.clock, t.subs + RowsFor(t, p, id), user)
  {
    if p.plan.None? {
      assert t.subs + [] == t.subs;
    } else if p.plan.value.Day? {
      CreditRowsKeepSchedule(t.plans, t.clock, t.subs, p.planner, id, p.quantity, user);
    } else {
      DatedRowsKeepSchedule(t.plans, t.clock, t.subs, p.planner, p.plan.value, id, p.quantity, user);
    }
  }

  // ---- Credits, and the passing of time ----

  lemma OwnCreditKeeps(plans: PlanTable, clock: int, subs: seq<Subscription>, id: RowId, row: Subscription)
    requires id < |subs| && row.user == subs[id].user && !HasQueued(subs, row.user) && NotLate(clock, subs, row.user)
    requires row.status.Active? && row.expiresAt.Some? && clock <= row.expiresAt.value
    ensures OnSchedule(plans, clock, subs[id := row], row.user)
  {
    var subs' := subs[id := row];
    assert subs'[id].status.Active?;
    NoQueueIsExact(plans, clock, subs', row.user);
  }

  lemma OthersCreditKeeps(plans: PlanTable, clock: int, subs: seq<Subscription>, id: RowId, row: Subscription,
      user: UserId)
    requires id < |subs| && row.user == subs[id].user != user && row.plan == subs[id].plan
    requires OnSchedule(plans, clock, subs, user)
    ensures OnSchedule(plans, clock, subs[id := row], user)
  {
    var subs' := subs[id := row];
    SameActive(subs, subs', user);
    forall i: RowId | i < |subs'| && IsQueued(subs'[i], user)
      ensures StartsExactly(plans, clock, subs', user, i)
    {
      assert IsQueued(subs[i], user) && StartsExactly(plans, clock, subs, user, i);
      OthersRowExact(plans, clock, subs, id, row, user, i);
    }
    if HasQueued(subs', user) {
      var i :| 0 <= i < |subs'| && IsQueued(subs'[i], user);
      assert subs[i].status.Queued?;
    }
  }

  lemma OthersRowExact(plans: PlanTable, clock: int, subs: seq<Subscription>, id: RowId, row: Subscription,
      user: UserId, i: RowId)
    requires id < |subs| && row.user == subs[id].user != user && row.plan == subs[id].plan
    requires i < |subs| && i != id && StartsExactly(plans, clock, subs, user, i)
    ensures StartsExactly(plans, clock, subs[id := row], user, i)
  {
    SameActive(subs, subs[id := row], user);
    QueuedMsSame(plans, subs[..i], subs[id := row][..i], user);
  }

  lemma ActivateKeepsSchedule(t: Tables, id: RowId, user: UserId)
    requires Scheduled(t, user)
    requires id < |t.subs| && !HasActive(t.subs, t.subs[id].user)
    ensures Scheduled(t.(subs := t.subs[id := Activated(t.plans, t.subs[id], t.clock)]), user)
  {
    var row := Activated(t.plans, t.subs[id], t.clock);
    if row.user == user {
      OwnCreditKeeps(t.plans, t.clock, t.subs, id, row);
    } else {
      OthersCreditKeeps(t.plans, t.clock, t.subs, id, row, user);
    }
  }

  lemma TickKeepsSchedule(t: Tables, ms: nat, user: UserId)
    requires Scheduled(t, user) && Prompt(t, Tick(ms), user)
    ensures Scheduled(t.(clock := t.clock + ms), user)
  {
    assert NotLate(t.clock + ms, t.subs, user) by {
      assert forall i | 0 <= i < |t.subs| :: t.subs[i] in t.subs;
    }
    if HasActive(t.subs, user) {
      SameStart(t.clock, t.clock + ms, t.subs, user);
      assert forall i: RowId | i < |t.subs| && IsQueued(t.subs[i], user) ::
          StartsExactly(t.plans, t.clock, t.subs, user, i);
    }
  }

  lemma SameStart(clock: int, later: int, subs: seq<Subscription>, user: UserId)
    requires NotLate(clock, subs, user) && HasActive(subs, user)
    ensures ChainStart(later, subs, user) == ChainStart(clock, subs, user)
  {
    assert IsActive(subs[ActiveRow(subs, user).value], user);
  }

  // ---- The sweep ----

  /** Expiring an active row on time leaves the start of the chain where it was. */
  lemma ExpiryKeepsStart(clock: int, subs: seq<Subscription>, user: UserId)
    requires OneActive(subs) && NotLate(clock, subs, user) && HasActive(subs, user)
    ensures ChainStart(clock, AfterExpiry(subs, clock), user) == ChainStart(clock, subs, user)
  {
    var a, a' := ActiveRow(subs, user), ActiveRow(AfterExpiry(subs, clock), user);
    assert IsActive(subs[a.value], user);
    if a'.Some? {
      assert subs[a'.value].user == user && subs[a'.value].status.Active?;
      assert a == a';
    } else {
      assert !AfterExpiry(subs, clock)[a.value].status.Active?;
    }
  }

  lemma ExpiredRowExact(plans: PlanTable, clock: int, subs: seq<Subscription>, user: UserId, i: RowId)
    requires OneActive(subs) && NotLate(clock, subs, user) && HasActive(subs, user)
    requires i < |subs| && IsQueued(subs[i], user) && StartsExactly(plans, clock, subs, user, i)
    ensures StartsExactly(plans, clock, AfterExpiry(subs, clock), user, i)
  {
    QueuedMsSame(plans, subs[..i], AfterExpiry(subs, clock)[..i], user);
    ExpiryKeepsStart(clock, subs, user);
  }

  lemma ExpiryKeepsExact(plans: PlanTable, clock: int, subs: seq<Subscription>, user: UserId)
    requires OneActive(subs) && OnSchedule(plans, clock, subs, user)
    ensures NotLate(clock, AfterExpiry(subs, clock), user) && AllExact(plans, clock, AfterExpiry(subs, clock), user)
  {
    var after := AfterExpiry(subs, clock);
    forall i: RowId | i < |after| && IsQueued(after[i], user)
      ensures StartsExactly(plans, clock, after, user, i)
    {
      assert IsQueued(subs[i], user) && StartsExactly(plans, clock, subs, user, i) && HasQueued(subs, user);
      ExpiredRowExact(plans, clock, subs, user, i);
    }
    ExpiryNotLate(clock, subs, user);
  }

  lemma ExpiryNotLate(clock: int, subs: seq<Subscription>, user: UserId)
    requires NotLate(clock, subs, user)
    ensures NotLate(clock, AfterExpiry(subs, clock), user)
  {
    forall i | 0 <= i < |subs| && IsActive(AfterExpiry(subs, clock)[i], user)
      ensures subs[i].expiresAt.Some? && clock <= subs[i].expiresAt.value
    {
      assert IsActive(subs[i], user);
    }
  }

  lemma PromotionKeepsExact(plans: PlanTable, clock: int, subs: seq<Subscription>, users: set<UserId>, user: UserId)
    requires NotLate(clock, subs, user) && AllExact(plans, clock, subs, user)
    ensures var subs' := AfterPromotion(plans, subs, clock, users);
            NotLate(clock, subs', user) && AllExact(plans, clock, subs', user)
  {
    var subs' := AfterPromotion(plans, subs, clock, users);
    forall i: RowId | i < |subs'| && IsQueued(subs'[i], user)
      ensures StartsExactly(plans, clock, subs', user, i)
    {
      assert IsQueued(subs[i], user) && StartsExactly(plans, clock, subs, user, i);
      PassedOverExact(plans, clock, subs, users, user, i);
    }
    PromotionNotLate(plans, clock, subs, users, user);
  }

  /** A row passed over keeps its place: what the queue ahead of it loses, the start of the chain gains. */
  lemma PassedOverExact(plans: PlanTable, clock: int, subs: seq<Subscription>, users: set<UserId>, user: UserId,
      i: RowId)
    requires i < |subs| && subs[i].user == user && StartsExactly(plans, clock, subs, user, i)
    requires AfterPromotion(plans, subs, clock, users)[i].status.Queued?
    ensures StartsExactly(plans, clock, AfterPromotion(plans, subs, clock, users), user, i)
  {
    QueuedMsAfterPromotion(plans, subs, clock, users, user, i);
    PromotedChainStart(plans, clock, subs, users, i);
  }

  lemma PromotionNotLate(plans: PlanTable, clock: int, subs: seq<Subscription>, users: set<UserId>, user: UserId)
    requires NotLate(clock, subs, user)
    ensures NotLate(clock, AfterPromotion(plans, subs, clock, users), user)
  {
    forall i | 0 <= i < |subs| && IsActive(AfterPromotion(plans, subs, clock, users)[i], user)
      ensures var s := AfterPromotion(plans, subs, clock, users)[i]; s.expiresAt.Some? && clock <= s.expiresAt.value
    {
      assert IsActive(subs[i], user) || AfterPromotion(plans, subs, clock, users)[i] == Promoted(plans, subs[i], clock);
    }
  }

  lemma SweepKeepsSchedule(t: Tables, user: UserId)
    requires Inv(t) && Scheduled(t, user)
    ensures Scheduled(t.(subs := Swept(t.plans, t.subs, t.clock)), user)
  {
    var after := AfterExpiry(t.subs, t.clock);
    ExpiryKeepsExact(t.plans, t.clock, t.subs, user);
    PromotionKeepsExact(t.plans, t.clock, after, Waiting(after), user);
    QueueAfterSweep(t, user);
  }

  /** A row is promoted on time at the very time it was projected to start. */
  lemma SweepStartsAsProjected(t: Tables, user: UserId, i: RowId)
    requires Inv(t) && Scheduled(t, user) && i < |t.subs| && IsQueued(t.subs[i], user)
    ensures Swept(t.plans, t.subs, t.clock)[i].startsAt == t.subs[i].startsAt
  {
    ExpiryKeepsExact(t.plans, t.clock, t.subs, user);
    var after := AfterExpiry(t.subs, t.clock);
    assert IsQueued(after[i], user) && StartsExactly(t.plans, t.clock, after, user, i);
    PromotedAsProjected(t.plans, t.clock, after, Waiting(after), user, i);
  }

  lemma PromotedAsProjected(plans: PlanTable, clock: int, subs: seq<Subscription>, users: set<UserId>, user: UserId,
      i: RowId)
    requires i < |subs| && IsQueued(subs[i], user) && StartsExactly(plans, clock, subs, user, i)
    ensures AfterPromotion(plans, subs, clock, users)[i].startsAt == subs[i].startsAt
  {
    if NextInLine(subs, i) {
      NothingAhead(plans, subs, i, user);
    }
  }

  // ---- Runs ----

  lemma DeliveryAdds(t: Tables, d: Delivery) returns (id: RowId)
    requires Inv(t) && Process(t, d).0.subs != t.subs
    ensures id < |t.payments| && CanMint(t, t.payments[id])
    ensures Process(t, d).0.subs == t.subs + RowsFor(t, t.payments[id], id)
  {
    id := Verdict(t, d).1.value;
    MintIs(t.(events := Process(t, d).0.events), id, t.payments[id].(status := Confirmed));
  }

  lemma ReviewAdds(t: Tables, id: RowId, decision: Decision, reason: Option<string>)
    requires Inv(t) && Review(t, id, decision, reason).0.subs != t.subs
    ensures id < |t.payments| && CanMint(t, t.payments[id])
    ensures Review(t, id, decision, reason).0.subs == t.subs + RowsFor(t, t.payments[id], id)
  {
    MintIs(t, id, t.payments[id].(rejectionReason := reason, status := Confirmed));
  }

  lemma StepKeepsSchedule(t: Tables, op: Op, user: UserId)
    requires Inv(t) && Scheduled(t, user) && Prompt(t, op, user)
    ensures Scheduled(Apply(t, op), user)
  {
    match op
    case Tick(ms) => TickStep(t, ms, user);
    case Sweep => SweepStep(t, user);
    case ActivateCredit(owner, id) => CreditKeepsSchedule(t, owner, id, user);
    case _ => PaymentStepKeepsSchedule(t, op, user);
  }

  lemma TickStep(t: Tables, ms: nat, user: UserId)
    requires Scheduled(t, user) && Prompt(t, Tick(ms), user)
    ensures Scheduled(Apply(t, Tick(ms)), user)
  {
    TickKeepsSchedule(t, ms, user);
  }

  lemma SweepStep(t: Tables, user: UserId)
    requires Inv(t) && Scheduled(t, user)
    ensures Scheduled(Apply(t, Sweep), user)
  {
    SweepKeepsSchedule(t, user);
  }

  lemma PaymentStepKeepsSchedule(t: Tables, op: Op, user: UserId)
    requires Inv(t) && Scheduled(t, user) && !op.Tick? && !op.Sweep? && !op.ActivateCredit?
    ensures Scheduled(Apply(t, op), user)
  {
    if op.Deliver? {
      DeliveryKeepsSchedule(t, op.delivery, user);
    } else if op.ReviewPayment? {
      ReviewKeepsSchedule(t, op.id, op.decision, op.reason, user);
    } else {
      SubsUntouched(t, op);
      SameSchedule(t, Apply(t, op), user);
    }
  }

  lemma CreditKeepsSchedule(t: Tables, owner: UserId, id: RowId, user: UserId)
    requires Inv(t) && Scheduled(t, user)
    ensures Scheduled(Apply(t, ActivateCredit(owner, id)), user)
  {
    if Activate(t, owner, id).Ok? {
      ActivateKeepsSchedule(t, id, user);
    }
  }

  lemma SubsUntouched(t: Tables, op: Op)
    requires op.Buy? || op.ReportTransfer? || op.ReconcilePayments? || op.SendReminders?
    ensures Apply(t, op).subs == t.subs && Apply(t, op).plans == t.plans && Apply(t, op).clock == t.clock
  {
  }

  lemma SameSchedule(t: Tables, t': Tables, user: UserId)
    requires Scheduled(t, user) && t'.plans == t.plans && t'.clock == t.clock && t'.subs == t.subs
    ensures Scheduled(t', user)
  {
  }

  lemma AddedKeepsSchedule(t: Tables, t': Tables, id: RowId, p: Payment, user: UserId)
    requires Inv(t) && Scheduled(t, user) && CanMint(t, p)
    requires t'.plans == t.plans && t'.clock == t.clock && t'.subs == t.subs + RowsFor(t, p, id)
    ensures Scheduled(t', user)
  {
    MintKeepsSchedule(t, id, p, user);
  }

  lemma DeliveryKeepsSchedule(t: Tables, d: Delivery, user: UserId)
    requires Inv(t) && Scheduled(t, user)
    ensures Scheduled(Process(t, d).0, user)
  {
    var t' := Process(t, d).0;
    DeliverySameClock(t, d);
    if t'.subs == t.subs {
      SameSchedule(t, t', user);
    } else {
      var id := DeliveryAdds(t, d);
      AddedKeepsSchedule(t, t', id, t.payments[id], user);
    }
  }

  lemma DeliverySameClock(t: Tables, d: Delivery)
    ensures Process(t, d).0.plans == t.plans && Process(t, d).0.clock == t.clock
  {
  }

  lemma ReviewKeepsSchedule(t: Tables, id: RowId, decision: Decision, reason: Option<string>, user: UserId)
    requires Inv(t) && Scheduled(t, user)
    ensures Scheduled(Review(t, id, decision, reason).0, user)
  {
    var t' := Review(t, id, decision, reason).0;
    if t'.subs == t.subs {
      SameSchedule(t, t', user);
    } else {
      ReviewAdds(t, id, decision, reason);
      AddedKeepsSchedule(t, t', id, t.payments[id], user);
    }
  }

  lemma {:induction false} RunKeepsSchedule(t: Tables, ops: seq<Op>, user: UserId)
    requires Init(t) && PromptRun(t, ops, user)
    ensures Inv(Run(t, ops)) && Scheduled(Run(t, ops), user)
    decreases |ops|
  {
    RunKeeps(t, ops);
    if ops != [] {
      var n := |ops| - 1;
      PrefixPrompt(t, ops, n, user);
      RunKeepsSchedule(t, ops[..n], user);
      StepKeepsSchedule(Run(t, ops[..n]), ops[n], user);
    }
  }

  lemma PrefixPrompt(t: Tables, ops: seq<Op>, n: nat, user: UserId)
    requires PromptRun(t, ops, user) && n <= |ops|
    ensures PromptRun(t, ops[..n], user)
    ensures n < |ops| ==> Prompt(Run(t, ops[..n]), ops[n], user)
  {
    forall k | 0 <= k < n
      ensures Prompt(Run(t, ops[..n][..k]), ops[..n][k], user)
    {
      assert ops[..n][..k] == ops[..k];
    }
  }

  /** As long as sweeps keep up with a user's expiries, that user's chain is without a gap. */
  lemma PromptChainsAreExact(t: Tables, ops: seq<Op>, user: UserId)
    requires Init(t) && PromptRun(t, ops, user)
    ensures ChainExact(Run(t, ops).plans, Run(t, ops).subs, user)
  {
    RunKeepsSchedule(t, ops, user);
    var r := Run(t, ops);
    ChainFromExact(r.plans, r.clock, r.subs, user);
  }

  lemma StepKeepsStart(t: Tables, op: Op, user: UserId, i: RowId)
    requires Inv(t) && Scheduled(t, user)
    requires i < |t.subs| && t.subs[i].user == user && (t.subs[i].status.Queued? || Began(t.subs[i]))
    ensures i < |Apply(t, op).subs|
    ensures var s := Apply(t, op).subs[i];
            s.startsAt == t.subs[i].startsAt && s.user == user && (s.status.Queued? || Began(s))
  {
    RowAdvances(t, op, i);
    if t.subs[i].status.Queued? {
      if op.Sweep? {
        SweepStartsAsProjected(t, user, i);
      } else {
        OnlySweepPromotes(t, op, i);
      }
    } else {
      BegunStaysPut(t.subs[i], Apply(t, op).subs[i]);
    }
  }

  lemma RowAdvances(t: Tables, op: Op, i: RowId)
    requires i < |t.subs|
    ensures i < |Apply(t, op).subs| && Advances(t.subs[i], Apply(t, op).subs[i])
  {
    StepFollows(t, op);
  }

  lemma BegunStaysPut(s: Subscription, s': Subscription)
    requires Advances(s, s') && Began(s)
    ensures Began(s') && s'.startsAt == s.startsAt && s'.user == s.user
  {
  }

  lemma LastStepKeepsStart(t: Tables, ops: seq<Op>, user: UserId, i: RowId)
    requires Init(t) && ops != [] && PromptRun(t, ops[..|ops| - 1], user)
    requires var mid := Run(t, ops[..|ops| - 1]);
             i < |mid.subs| && mid.subs[i].user == user && (mid.subs[i].status.Queued? || Began(mid.subs[i]))
    ensures i < |Run(t, ops).subs|
    ensures var s := Run(t, ops).subs[i];
            && s.startsAt == Run(t, ops[..|ops| - 1]).subs[i].startsAt && s.user == user
            && (s.status.Queued? || Began(s))
  {
    RunKeepsSchedule(t, ops[..|ops| - 1], user);
    StepKeepsStart(Run(t, ops[..|ops| - 1]), ops[|ops| - 1], user, i);
  }

  /** And every stacked period starts exactly when it was projected to: once queued, its start never moves. */
  lemma {:induction false} StartsAsProjected(t: Tables, ops: seq<Op>, j: nat, user: UserId, i: RowId)
    requires Init(t) && PromptRun(t, ops, user) && j <= |ops|
    requires i < |Run(t, ops[..j]).subs| && IsQueued(Run(t, ops[..j]).subs[i], user)
    ensures i < |Run(t, ops).subs| && Run(t, ops).subs[i].startsAt == Run(t, ops[..j]).subs[i].startsAt
    ensures Run(t, ops).subs[i].user == user && (Run(t, ops).subs[i].status.Queued? || Began(Run(t, ops).subs[i]))
    decreases |ops|
  {
    if j == |ops| {
      assert ops[..j] == ops;
    } else {
      var n := |ops| - 1;
      assert ops[..n][..j] == ops[..j];
      PrefixPrompt(t, ops, n, user);
      StartsAsProjected(t, ops[..n], j, user, i);
      LastStepKeepsStart(t, ops, user, i);
    }
  }
}
