/**
 * What the steps that mint nothing do to each row, and when a renewal is warned about, told in days
 * and milliseconds.
 */
module SubscriptionSteps {
  import opened Wrappers
  import opened Database
  import opened SubscriptionRules
  import opened SubscriptionInvariant
  import opened LedgerInvariant
  import opened LedgerRuns
  import opened LedgerTheorems

  const ONE_DAY: int := 86_400_000

  /** The row after it starts now, for as many days as its plan has. */
  function StartedNow(t: Tables, s: Subscription): Subscription
    requires s.plan in t.plans
  {
    s.(status := Active, startsAt := Some(t.clock), expiresAt := Some(t.clock + t.plans[s.plan].durationDays * ONE_DAY))
  }

  // ---- Credits ----

  /**
   * A user may start a credit of their own that is banked while none of their rows is active; it
   * starts now and no other row changes.
   */
  lemma ActivationStartsNow(t: Tables, user: UserId, id: RowId)
    requires Reachable(t)
    ensures var t' := Apply(t, ActivateCredit(user, id));
            if id < |t.subs| && t.subs[id].user == user && t.subs[id].status.Ready?
               && (forall i | 0 <= i < |t.subs| && t.subs[i].user == user :: !t.subs[i].status.Active?)
            then
              && t.subs[id].plan in t.plans
              && t' == t.(subs := t.subs[id := StartedNow(t, t.subs[id]).(activatedAt := Some(t.clock))])
            else t' == t
  {
    if id < |t.subs| && t.subs[id].user == user && t.subs[id].status.Ready? {
      ActivationSucceeds(t, user, id);
      ReachableInv(t);
      assert RowOk(t.plans, t.clock, t.subs[id]);
    }
  }

  /**
   * What is answered: the first thing wrong, and if a row is active whether it is still running or
   * only not yet swept.
   */
  lemma RefusalsAre(t: Tables, user: UserId, id: RowId, a: RowId)
    requires Reachable(t)
    ensures var r, mine := Activate(t, user, id), id < |t.subs| && t.subs[id].user == user;
            && (r == Err(NotFound) <==> !mine)
            && (r == Err(AlreadyRunning) <==> mine && t.subs[id].status.Active?)
            && (forall status :: r == Err(NotReady(status)) <==>
                  mine && t.subs[id].status == status && !status.Active? && !status.Ready?)
            && (mine && t.subs[id].status.Ready? && a < |t.subs| && t.subs[a].user == user
                && t.subs[a].status.Active? ==>
                  t.subs[a].expiresAt.Some?
                  && r == Err(if t.clock < t.subs[a].expiresAt.value then WouldBeWasted(t.subs[a].plan)
                              else UniqueViolation))
  {
    ReachableInv(t);
    var running := GetActiveSubscription(t.subs, user, t.clock);
    if a < |t.subs| && t.subs[a].user == user && t.subs[a].status.Active? {
      assert RowOk(t.plans, t.clock, t.subs[a]);
      OnlyRunning(t, user, a);
    }
    if id < |t.subs| {
      assert RowOk(t.plans, t.clock, t.subs[id]);
    }
  }

  lemma OnlyRunning(t: Tables, user: UserId, a: RowId)
    requires OneActive(t.subs) && a < |t.subs| && t.subs[a].user == user && t.subs[a].status.Active?
    requires t.subs[a].expiresAt.Some?
    ensures HasActive(t.subs, user)
    ensures GetActiveSubscription(t.subs, user, t.clock)
            == if t.clock < t.subs[a].expiresAt.value then Some(a) else None
  {
    if t.clock < t.subs[a].expiresAt.value {
      assert Running(t.subs[a], t.clock);
    }
  }

  // ---- The sweep ----

  /**
   * A sweep ends what has run out, starts the oldest waiting row of every user nothing runs for, and
   * leaves every other row, and every other table, alone.
   */
  lemma SweepDoes(t: Tables, i: RowId)
    requires Reachable(t) && i < |t.subs|
    ensures var t', s := Apply(t, Sweep), t.subs[i];
            && t' == t.(subs := t'.subs) && |t'.subs| == |t.subs| && s.plan in t.plans
            && t'.subs[i] ==
                 if s.status.Active? && s.expiresAt.Some? && s.expiresAt.value <= t.clock then
                   s.(status := SubscriptionStatus.Expired)
                 else if IsNext(t, i) then StartedNow(t, s) else s
  {
    PlanIsKnown(t, i);
    SweptRow(t, i);
    if t.subs[i].status.Queued? {
      SweepPromotesOldest(t, i);
    }
  }

  /** The row waits, nothing runs for its user, and none of theirs has waited longer. */
  ghost predicate IsNext(t: Tables, i: RowId)
    requires i < |t.subs|
  {
    && t.subs[i].status.Queued? && !HasAccess(t.subs, t.subs[i].user, t.clock)
    && forall j | 0 <= j < i :: !(t.subs[j].user == t.subs[i].user && t.subs[j].status.Queued?)
  }

  lemma PlanIsKnown(t: Tables, i: RowId)
    requires Reachable(t) && i < |t.subs|
    ensures t.subs[i].plan in t.plans
  {
    ReachableInv(t);
    assert RowOk(t.plans, t.clock, t.subs[i]);
  }

  lemma SweptRow(t: Tables, i: RowId)
    requires i < |t.subs| && t.subs[i].plan in t.plans
    ensures var s, s' := t.subs[i], Swept(t.plans, t.subs, t.clock)[i];
            if s.status.Active? && s.expiresAt.Some? && s.expiresAt.value <= t.clock then
              s' == s.(status := SubscriptionStatus.Expired)
            else if s.status.Queued? && s'.status.Active? then s' == StartedNow(t, s)
            else s' == s
  {
  }

  // ---- Renewal reminders ----

  /** Days are counted as begun: the last millisecond of a day still counts it whole. */
  lemma DaysLeft(target: int, clock: int, days: int)
    ensures WholeDaysUntil(target, clock) == days <==> (days - 1) * ONE_DAY < target - clock <= days * ONE_DAY
  {
  }

  /**
   * Warned about in the last 30, 7 and 1 days of a year and the last 3 of a month, while it runs;
   * the nearest counts.
   */
  lemma WarningIs(s: Subscription, clock: int)
    requires s.expiresAt.Some?
    ensures var left := s.expiresAt.value - clock;
            Warning(s, clock) ==
              if !s.status.Active? || left <= 0 then None
              else match s.plan
                case Day => None
                case Month => if left <= 3 * ONE_DAY then Some(3) else None
                case Year =>
                  if left <= ONE_DAY then Some(1) else if left <= 7 * ONE_DAY then Some(7)
                  else if left <= 30 * ONE_DAY then Some(30) else None
  {
    var days := WholeDaysUntil(s.expiresAt.value, clock);
    DaysLeft(s.expiresAt.value, clock, days);
  }

  // ---- Counting rows ----

  function RowsOf(subs: seq<Subscription>, id: RowId): set<RowId> {
    set i: RowId | i < |subs| && subs[i].payment == id
  }

  /** The count of a payment's rows is the number of rows that name it. */
  lemma {:induction false} CountForIs(subs: seq<Subscription>, id: RowId)
    ensures CountFor(subs, id) == |RowsOf(subs, id)|
    decreases |subs|
  {
    if subs == [] {
      assert RowsOf(subs, id) == {};
    } else {
      var init, row := subs[..|subs| - 1], subs[|subs| - 1];
      CountForIs(init, id);
      assert RowsOf(subs, id) == RowsOf(init, id) + if row.payment == id then {|init|} else {};
    }
  }
}
