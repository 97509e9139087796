/** Renewal reminders over every run: once per threshold, in order, and exactly when a run falls in the window. */
module Reminders {
  import opened Wrappers
  import opened Database
  import opened SubscriptionRules
  import opened SubscriptionInvariant
  import opened LedgerRuns
  import opened LedgerTheorems

  /** The row's current threshold is already at or below the days warned about. */
  ghost predicate Passed(t: Tables, r: Reminder) {
    && r.subscription < |t.subs| && Began(t.subs[r.subscription])
    && t.subs[r.subscription].expiresAt.Some?
    && var d := Threshold(t.subs[r.subscription].plan, WholeDaysUntil(t.subs[r.subscription].expiresAt.value, t.clock));
       d.Some? && d.value <= r.days
  }

  ghost predicate Decreasing(sent: seq<Reminder>) {
    forall k, l | 0 <= k < l < |sent| && sent[k].subscription == sent[l].subscription :: sent[l].days < sent[k].days
  }

  ghost predicate RemindersInv(t: Tables) {
    (forall k | 0 <= k < |t.reminders| :: Passed(t, t.reminders[k])) && Decreasing(t.reminders)
  }

  lemma ThresholdMonotone(plan: PlanCode, expiry: int, now: int, later: int)
    requires now <= later
    ensures WholeDaysUntil(expiry, later) <= WholeDaysUntil(expiry, now)
    ensures var d, d' := Threshold(plan, WholeDaysUntil(expiry, now)), Threshold(plan, WholeDaysUntil(expiry, later));
            d.Some? ==> d'.Some? && d'.value <= d.value
  {
  }

  lemma {:induction false} DueIs(t: Tables, n: nat, r: Reminder)
    requires n <= |t.subs|
    ensures r in Due(t, n) <==>
              r.subscription < n && Warning(t.subs[r.subscription], t.clock) == Some(r.days) && r !in t.reminders
    decreases n
  {
    if n > 0 {
      DueIs(t, n - 1, r);
    }
  }

  lemma {:induction false} DueInRowOrder(t: Tables, n: nat)
    requires n <= |t.subs|
    ensures forall k, l | 0 <= k < l < |Due(t, n)| :: Due(t, n)[k].subscription < Due(t, n)[l].subscription
    decreases n
  {
    if n > 0 {
      var due := Due(t, n - 1);
      DueInRowOrder(t, n - 1);
      forall k | 0 <= k < |due|
        ensures due[k].subscription < n - 1
      {
        DueIs(t, n - 1, due[k]);
      }
    }
  }

  lemma DueHasPassed(t: Tables, k: nat)
    requires RowsOk(t.plans, t.clock, t.subs) && k < |Due(t, |t.subs|)|
    ensures Passed(t, Due(t, |t.subs|)[k])
  {
    DueIs(t, |t.subs|, Due(t, |t.subs|)[k]);
  }

  lemma DueIsCloser(t: Tables)
    requires RemindersInv(t)
    ensures Decreasing(t.reminders + Due(t, |t.subs|))
  {
    var due := Due(t, |t.subs|);
    DueInRowOrder(t, |t.subs|);
    forall k, l | 0 <= k < |t.reminders| && 0 <= l < |due| && t.reminders[k].subscription == due[l].subscription
      ensures due[l].days < t.reminders[k].days
    {
      DueIs(t, |t.subs|, due[l]);
      assert Passed(t, t.reminders[k]) && t.reminders[k] in t.reminders;
    }
  }

  lemma RemindKeeps(t: Tables)
    requires RemindersInv(t) && RowsOk(t.plans, t.clock, t.subs)
    ensures RemindersInv(Remind(t))
  {
    DueIsCloser(t);
    forall k | 0 <= k < |Remind(t).reminders|
      ensures Passed(Remind(t), Remind(t).reminders[k])
    {
      if k >= |t.reminders| {
        DueHasPassed(t, k - |t.reminders|);
      }
    }
  }

  lemma StepSends(t: Tables, op: Op, r: Reminder)
    ensures r in Apply(t, op).reminders <==>
              || r in t.reminders
              || (op.SendReminders? && r.subscription < |t.subs|
                  && Warning(t.subs[r.subscription], t.clock) == Some(r.days))
  {
    if op.SendReminders? {
      DueIs(t, |t.subs|, r);
    }
  }

  lemma OtherStepKeeps(t: Tables, op: Op)
    requires RemindersInv(t) && !op.SendReminders?
    ensures RemindersInv(Apply(t, op))
  {
    var t' := Apply(t, op);
    StepFollows(t, op);
    assert t'.reminders == t.reminders;
    forall k | 0 <= k < |t.reminders|
      ensures Passed(t', t.reminders[k])
    {
      var r := t.reminders[k];
      assert Passed(t, r) && Advances(t.subs[r.subscription], t'.subs[r.subscription]);
      ThresholdMonotone(t.subs[r.subscription].plan, t.subs[r.subscription].expiresAt.value, t.clock, t'.clock);
    }
  }

  lemma {:induction false} RunKeepsReminders(t: Tables, ops: seq<Op>)
    requires Init(t)
    ensures RemindersInv(Run(t, ops))
    decreases |ops|
  {
    if ops != [] {
      var mid := Run(t, ops[..|ops| - 1]);
      RunKeepsReminders(t, ops[..|ops| - 1]);
      RunKeeps(t, ops[..|ops| - 1]);
      if ops[|ops| - 1].SendReminders? {
        RemindKeeps(mid);
      } else {
        OtherStepKeeps(mid, ops[|ops| - 1]);
      }
    }
  }

  /** No (subscription, threshold) pair is sent twice, and a subscription's thresholds only get closer. */
  lemma RemindersNeverRepeat(t: Tables)
    requires Reachable(t)
    ensures forall k, l | 0 <= k < l < |t.reminders| && t.reminders[k].subscription == t.reminders[l].subscription ::
              t.reminders[l].days < t.reminders[k].days
    ensures forall k | 0 <= k < |t.reminders| ::
              && t.reminders[k].subscription < |t.subs|
              && t.reminders[k].days in Thresholds(t.subs[t.reminders[k].subscription].plan)
  {
    var t0: Tables, ops: seq<Op> :| Init(t0) && t == Run(t0, ops);
    RunKeepsReminders(t0, ops);
    forall k | 0 <= k < |t.reminders|
      ensures t.reminders[k].subscription < |t.subs|
      ensures t.reminders[k].days in Thresholds(t.subs[t.reminders[k].subscription].plan)
    {
      assert t.reminders[k] in t.reminders && Passed(t, t.reminders[k]);
      SentExactlyInWindow(t0, ops, t.reminders[k]);
      var j: nat :| InWindow(t0, ops, t.reminders[k], j);
      RunIsRun(t0, ops, j);
      RunFollows(Run(t0, ops[..j]), ops[j..]);
      assert Advances(Run(t0, ops[..j]).subs[t.reminders[k].subscription], t.subs[t.reminders[k].subscription]);
    }
  }

  /** Step k is a reminder run made while the row was in this threshold's window. */
  ghost predicate InWindow(t: Tables, ops: seq<Op>, r: Reminder, k: nat) {
    && k < |ops| && ops[k].SendReminders?
    && var s := Run(t, ops[..k]);
       r.subscription < |s.subs| && Warning(s.subs[r.subscription], s.clock) == Some(r.days)
  }

  lemma PrefixWindow(t: Tables, ops: seq<Op>, r: Reminder, k: nat)
    requires k < |ops| - 1
    ensures InWindow(t, ops, r, k) <==> InWindow(t, ops[..|ops| - 1], r, k)
  {
    assert ops[..|ops| - 1][..k] == ops[..k];
  }

  lemma LastWindow(t: Tables, ops: seq<Op>, r: Reminder)
    requires ops != []
    ensures r in Run(t, ops).reminders <==> r in Run(t, ops[..|ops| - 1]).reminders || InWindow(t, ops, r, |ops| - 1)
  {
    StepSends(Run(t, ops[..|ops| - 1]), ops[|ops| - 1], r);
  }

  lemma SomeWindow(t: Tables, ops: seq<Op>, init: seq<Op>, r: Reminder)
    requires ops != [] && init == ops[..|ops| - 1]
    ensures (exists k :: InWindow(t, ops, r, k)) <==>
        (exists k :: InWindow(t, init, r, k)) || InWindow(t, ops, r, |init|)
  {
    if k: nat :| InWindow(t, ops, r, k) {
      if k < |init| {
        PrefixWindow(t, ops, r, k);
      }
    }
    if k: nat :| InWindow(t, init, r, k) {
      PrefixWindow(t, ops, r, k);
      assert InWindow(t, ops, r, k);
    }
  }

  /** A reminder has been sent exactly when some reminder run fell into its window. */
  lemma {:induction false} SentExactlyInWindow(t: Tables, ops: seq<Op>, r: Reminder)
    requires Init(t)
    ensures r in Run(t, ops).reminders <==> exists k :: InWindow(t, ops, r, k)
    decreases |ops|
  {
    if ops != [] {
      SentExactlyInWindow(t, ops[..|ops| - 1], r);
      LastWindow(t, ops, r);
      SomeWindow(t, ops, ops[..|ops| - 1], r);
    }
  }

  lemma {:induction false} RunIsRun(t: Tables, ops: seq<Op>, j: nat)
    requires j <= |ops|
    ensures Run(Run(t, ops[..j]), ops[j..]) == Run(t, ops)
    decreases |ops|
  {
    if j == |ops| {
      assert ops[..j] == ops;
    } else {
      var n := |ops| - 1;
      RunIsRun(t, ops[..n], j);
      assert ops[..n][..j] == ops[..j] && ops[j..][..n - j] == ops[..n][j..];
    }
  }
}
