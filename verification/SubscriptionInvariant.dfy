/** What every operation on subscriptions keeps. */
module SubscriptionInvariant {
  import opened Wrappers
  import opened Database
  import opened SubscriptionRules

  /** The row is, or has been, a running period. */
  predicate Began(s: Subscription) { s.status.Active? || s.status.Expired? }

  ghost predicate RowOk(plans: PlanTable, clock: int, s: Subscription) {
    && s.plan in plans
    && !s.status.Cancelled?
    && (s.status.Ready? ==> s.startsAt.None? && s.expiresAt.None?)
    && (s.status.Queued? ==> s.startsAt.Some? && s.expiresAt.None?)
    && (Began(s) ==>
          && s.startsAt.Some? && s.startsAt.value <= clock
          && s.expiresAt == Some(s.startsAt.value + PlanMs(plans, s.plan)))
    && (s.status.Expired? ==> s.expiresAt.value <= clock)
  }

  ghost predicate RowsOk(plans: PlanTable, clock: int, subs: seq<Subscription>) {
    forall i | 0 <= i < |subs| :: RowOk(plans, clock, subs[i])
  }

  ghost predicate OneActive(subs: seq<Subscription>) {
    forall i, j | 0 <= i < j < |subs| && subs[i].user == subs[j].user ::
      !(subs[i].status.Active? && subs[j].status.Active?)
  }

  /** [starts_at, expires_at) of the two rows do not meet. */
  ghost predicate Apart(a: Subscription, b: Subscription) {
    && a.startsAt.Some? && a.expiresAt.Some? && b.startsAt.Some? && b.expiresAt.Some?
    && (a.expiresAt.value <= b.startsAt.value || b.expiresAt.value <= a.startsAt.value)
  }

  ghost predicate PeriodsApart(subs: seq<Subscription>) {
    forall i, j | 0 <= i < j < |subs| && subs[i].user == subs[j].user && Began(subs[i]) && Began(subs[j]) ::
      Apart(subs[i], subs[j])
  }

  /** When the user's queue can start to run. */
  ghost function ChainStart(clock: int, subs: seq<Subscription>, user: UserId): int {
    var a := ActiveRow(subs, user);
    if a.Some? && subs[a.value].expiresAt.Some? then subs[a.value].expiresAt.value else clock
  }

  /** The start projected for queued row i is no later than what is ahead of it can take. */
  ghost predicate ProjectedInTime(plans: PlanTable, clock: int, subs: seq<Subscription>, i: nat)
    requires i < |subs|
  {
    subs[i].status.Queued? && subs[i].startsAt.Some? ==>
      subs[i].startsAt.value <= ChainStart(clock, subs, subs[i].user) + QueuedMs(plans, subs[..i], subs[i].user)
  }

  ghost predicate QueueInTime(plans: PlanTable, clock: int, subs: seq<Subscription>) {
    forall i | 0 <= i < |subs| :: ProjectedInTime(plans, clock, subs, i)
  }

  ghost predicate SubsInv(plans: PlanTable, clock: int, subs: seq<Subscription>) {
    RowsOk(plans, clock, subs) && OneActive(subs) && PeriodsApart(subs) && QueueInTime(plans, clock, subs)
  }

  // ---- Time passes ----

  lemma TickKeeps(plans: PlanTable, clock: int, later: int, subs: seq<Subscription>)
    requires SubsInv(plans, clock, subs) && clock <= later
    ensures SubsInv(plans, later, subs)
  {
    forall i | 0 <= i < |subs|
      ensures ProjectedInTime(plans, later, subs, i)
    {
      assert ProjectedInTime(plans, clock, subs, i);
    }
  }

  // ---- A row is inserted ----

  lemma Extended(plans: PlanTable, clock: int, subs: seq<Subscription>, row: Subscription, user: UserId)
    ensures QueuedMs(plans, subs + [row], user)
            == QueuedMs(plans, subs, user) + if row.user == user && row.status.Queued?
                then PlanMs(plans, row.plan) else 0
    ensures ActiveRow(subs + [row], user)
            == if ActiveRow(subs, user).Some? then ActiveRow(subs, user)
               else if row.user == user && row.status.Active? then Some(|subs|) else None
    ensures HasQueued(subs + [row], user) <==> HasQueued(subs, user) || (row.user == user && row.status.Queued?)
  {
    assert (subs + [row])[..|subs|] == subs;
    if HasQueued(subs, user) {
      var i :| 0 <= i < |subs| && subs[i].user == user && subs[i].status.Queued?;
      assert (subs + [row])[i] == subs[i];
    } else if row.user == user && row.status.Queued? {
      assert (subs + [row])[|subs|] == row;
    }
  }

  /** The row takes its place at the end of the chain. */
  ghost predicate Fits(plans: PlanTable, clock: int, subs: seq<Subscription>, row: Subscription) {
    && RowOk(plans, clock, row) && !row.status.Expired?
    && (row.status.Active? ==> !HasActive(subs, row.user) && row.startsAt == Some(clock))
    && (row.status.Queued? ==>
          row.startsAt.value <= ChainStart(clock, subs, row.user) + QueuedMs(plans, subs, row.user))
  }

  lemma InsertKeeps(plans: PlanTable, clock: int, subs: seq<Subscription>, row: Subscription)
    requires SubsInv(plans, clock, subs) && Fits(plans, clock, subs, row)
    ensures SubsInv(plans, clock, subs + [row])
  {
    var subs' := subs + [row];
    forall i | 0 <= i < |subs'|
      ensures RowOk(plans, clock, subs'[i]) && ProjectedInTime(plans, clock, subs', i)
    {
      Extended(plans, clock, subs, row, subs'[i].user);
      if i < |subs| {
        assert subs'[..i] == subs[..i] && subs'[i] == subs[i];
        assert RowOk(plans, clock, subs[i]) && ProjectedInTime(plans, clock, subs, i);
      } else {
        assert subs'[..i] == subs;
      }
    }
    forall i, j | 0 <= i < j < |subs'| && subs'[i].user == subs'[j].user
      ensures !(subs'[i].status.Active? && subs'[j].status.Active?)
      ensures Began(subs'[i]) && Began(subs'[j]) ==> Apart(subs'[i], subs'[j])
    {
      assert RowOk(plans, clock, subs[i]);
    }
  }

  // ---- A row is updated ----

  /** Updates that leave the queue as it was leave its length as it was. */
  lemma {:induction false} QueuedMsSame(plans: PlanTable, subs: seq<Subscription>, subs': seq<Subscription>,
      user: UserId)
    requires |subs| == |subs'|
    requires forall i | 0 <= i < |subs| ::
               && subs'[i].user == subs[i].user && subs'[i].plan == subs[i].plan
               && (subs'[i].user == user ==> (subs'[i].status.Queued? <==> subs[i].status.Queued?))
    ensures QueuedMs(plans, subs', user) == QueuedMs(plans, subs, user)
    decreases |subs|
  {
    if subs != [] {
      QueuedMsSame(plans, subs[..|subs| - 1], subs'[..|subs| - 1], user);
    }
  }

  lemma ActivateKeeps(plans: PlanTable, clock: int, subs: seq<Subscription>, id: RowId)
    requires SubsInv(plans, clock, subs) && id < |subs|
    requires subs[id].status.Ready? && !HasActive(subs, subs[id].user)
    ensures SubsInv(plans, clock, subs[id := Activated(plans, subs[id], clock)])
  {
    var row := Activated(plans, subs[id], clock);
    var subs' := subs[id := row];
    forall i | 0 <= i < |subs'|
      ensures RowOk(plans, clock, subs'[i]) && ProjectedInTime(plans, clock, subs', i)
    {
      assert RowOk(plans, clock, subs[i]) && RowOk(plans, clock, subs[id]);
      assert ProjectedInTime(plans, clock, subs, i);
      QueuedMsSame(plans, subs[..i], subs'[..i], subs[i].user);
      ChainStartAfterStart(clock, subs, subs', id, subs[i].user);
    }
    forall i, j | 0 <= i < j < |subs'| && subs'[i].user == subs'[j].user
      ensures !(subs'[i].status.Active? && subs'[j].status.Active?)
      ensures Began(subs'[i]) && Began(subs'[j]) ==> Apart(subs'[i], subs'[j])
    {
      assert RowOk(plans, clock, subs[i]) && RowOk(plans, clock, subs[j]);
    }
  }

  /** Starting a period now where nothing runs pushes the chain back. */
  lemma ChainStartAfterStart(clock: int, subs: seq<Subscription>, subs': seq<Subscription>, id: RowId, user: UserId)
    requires id < |subs| == |subs'| && subs' == subs[id := subs'[id]] && subs'[id].user == subs[id].user
    requires !HasActive(subs, subs[id].user) && subs'[id].status.Active?
    requires subs'[id].expiresAt.Some? && clock <= subs'[id].expiresAt.value
    ensures ChainStart(clock, subs, user) <= ChainStart(clock, subs', user)
    ensures user != subs[id].user ==> ChainStart(clock, subs, user) == ChainStart(clock, subs', user)
  {
    var a' := ActiveRow(subs', user);
    if user == subs[id].user {
      assert HasActive(subs', user) by { assert subs'[id].status.Active?; }
      assert forall k | 0 <= k < |subs'| && subs'[k].user == user && subs'[k].status.Active? :: k == id;
    } else {
      SameActive(subs, subs', user);
    }
  }

  lemma {:induction false} SameActive(subs: seq<Subscription>, subs': seq<Subscription>, user: UserId)
    requires |subs| == |subs'|
    requires forall i | 0 <= i < |subs| ::
               && subs'[i].user == subs[i].user
               && (subs'[i].user == user ==> (subs'[i].status.Active? <==> subs[i].status.Active?))
    ensures ActiveRow(subs', user) == ActiveRow(subs, user)
    decreases |subs|
  {
    if subs != [] {
      SameActive(subs[..|subs| - 1], subs'[..|subs| - 1], user);
    }
  }

  // ---- The sweep ----

  /** Expiring a lapsed row moves the start of the chain from its expiry to now. */
  lemma ChainStartAfterExpiry(clock: int, subs: seq<Subscription>, user: UserId)
    requires OneActive(subs)
    ensures ChainStart(clock, subs, user) <= ChainStart(clock, AfterExpiry(subs, clock), user)
  {
    var a, a' := ActiveRow(subs, user), ActiveRow(AfterExpiry(subs, clock), user);
    if a'.Some? {
      assert subs[a'.value].user == user && subs[a'.value].status.Active?;
      assert a == a';
    } else if a.Some? {
      assert !AfterExpiry(subs, clock)[a.value].status.Active?;
    }
  }

  lemma ExpiryKeeps(plans: PlanTable, clock: int, subs: seq<Subscription>)
    requires SubsInv(plans, clock, subs)
    ensures SubsInv(plans, clock, AfterExpiry(subs, clock))
    ensures forall i | 0 <= i < |subs| :: !Lapsed(AfterExpiry(subs, clock)[i], clock)
  {
    var subs' := AfterExpiry(subs, clock);
    forall i | 0 <= i < |subs'|
      ensures ProjectedInTime(plans, clock, subs', i)
    {
      assert ProjectedInTime(plans, clock, subs, i);
      QueuedMsSame(plans, subs[..i], subs'[..i], subs[i].user);
      ChainStartAfterExpiry(clock, subs, subs[i].user);
    }
    assert RowsOk(plans, clock, subs') by {
      assert forall i | 0 <= i < |subs| :: RowOk(plans, clock, subs[i]);
    }
    assert OneActive(subs') && PeriodsApart(subs');
  }

  /** The queue ahead of row n is shorter by the promoted row, if that was ahead of it. */
  lemma {:induction false} QueuedMsAfterPromotion(plans: PlanTable, subs: seq<Subscription>, clock: int,
                                                  users: set<UserId>, user: UserId, n: nat)
    requires n <= |subs|
    ensures var subs' := AfterPromotion(plans, subs, clock, users);
            var first := if user in users then FirstInLine(subs, user, n) else None;
            QueuedMs(plans, subs'[..n], user) + (if first.Some? then PlanMs(plans, subs[first.value].plan) else 0)
            == QueuedMs(plans, subs[..n], user)
    decreases n
  {
    if n > 0 {
      var subs' := AfterPromotion(plans, subs, clock, users);
      assert subs'[..n][..n - 1] == subs'[..n - 1] && subs[..n][..n - 1] == subs[..n - 1];
      QueuedMsAfterPromotion(plans, subs, clock, users, user, n - 1);
    }
  }

  /** The user's row among the first n that is next in line. */
  ghost function FirstInLine(subs: seq<Subscription>, user: UserId, n: nat): (r: Option<RowId>)
    requires n <= |subs|
    ensures r.Some? ==> r.value < n && subs[r.value].user == user && NextInLine(subs, r.value)
    ensures r.None? ==> forall i | 0 <= i < n :: !(subs[i].user == user && NextInLine(subs, i))
  {
    if n == 0 then None
    else if subs[n - 1].user == user && NextInLine(subs, n - 1) then Some(n - 1)
    else FirstInLine(subs, user, n - 1)
  }

  lemma PromotionKeeps(plans: PlanTable, clock: int, subs: seq<Subscription>, users: set<UserId>)
    requires SubsInv(plans, clock, subs)
    requires forall i | 0 <= i < |subs| :: !Lapsed(subs[i], clock)
    ensures SubsInv(plans, clock, AfterPromotion(plans, subs, clock, users))
  {
    var subs' := AfterPromotion(plans, subs, clock, users);
    forall i, j | 0 <= i < j < |subs'| && subs'[i].user == subs'[j].user
      ensures !(subs'[i].status.Active? && subs'[j].status.Active?)
      ensures Began(subs'[i]) && Began(subs'[j]) ==> Apart(subs'[i], subs'[j])
    {
      assert RowOk(plans, clock, subs[i]) && RowOk(plans, clock, subs[j]);
    }
    forall i | 0 <= i < |subs'|
      ensures RowOk(plans, clock, subs'[i]) && ProjectedInTime(plans, clock, subs', i)
    {
      assert RowOk(plans, clock, subs[i]) && ProjectedInTime(plans, clock, subs, i);
      var u := subs[i].user;
      QueuedMsAfterPromotion(plans, subs, clock, users, u, i);
      if subs'[i].status.Queued? {
        PromotedChainStart(plans, clock, subs, users, i);
      }
    }
  }

  lemma PromotedChainStart(plans: PlanTable, clock: int, subs: seq<Subscription>, users: set<UserId>, i: nat)
    requires i < |subs| && AfterPromotion(plans, subs, clock, users)[i].status.Queued?
    ensures var u := subs[i].user;
            var first := if u in users then FirstInLine(subs, u, i) else None;
            ChainStart(clock, AfterPromotion(plans, subs, clock, users), u)
            == ChainStart(clock, subs, u) + if first.Some? then PlanMs(plans, subs[first.value].plan) else 0
  {
    var u := subs[i].user;
    var subs' := AfterPromotion(plans, subs, clock, users);
    var first := if u in users then FirstInLine(subs, u, i) else None;
    var a' := ActiveRow(subs', u);
    if first.Some? {
      assert HasActive(subs', u) by { assert subs'[first.value].status.Active?; }
      assert a'.value == first.value;
    } else {
      forall k | 0 <= k < |subs| && subs[k].user == u && u in users
        ensures !NextInLine(subs, k)
      {
      }
      SameActive(subs, subs', u);
    }
  }

  lemma SweepKeeps(plans: PlanTable, clock: int, subs: seq<Subscription>)
    requires SubsInv(plans, clock, subs)
    ensures SubsInv(plans, clock, Swept(plans, subs, clock))
  {
    ExpiryKeeps(plans, clock, subs);
    var after := AfterExpiry(subs, clock);
    PromotionKeeps(plans, clock, after, Waiting(after));
  }
}
