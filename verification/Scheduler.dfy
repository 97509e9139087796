/** The scheduled jobs over subscriptions and payments; each runs alone under its advisory lock. */
module Scheduler {
  import opened Wrappers
  import opened Database
  import opened SubscriptionRules
  import opened SubscriptionInvariant
  import opened PaymentRules
  import opened LedgerInvariant
  import opened Subscriptions
  import opened MaintenanceNotices

  class SchedulerService {
    const db: Database
    const subscriptions: SubscriptionsService
    // Codes of the providers that implement polling.
    const pollable: seq<string>

    constructor (db: Database, subscriptions: SubscriptionsService, pollable: seq<string>)
      ensures this.db == db && this.subscriptions == subscriptions && this.pollable == pollable
    {
      this.db, this.subscriptions, this.pollable := db, subscriptions, pollable;
    }

    /** Sweeps, and tells every user about their one end and their one start exactly once. */
    method DoSubscriptionMaintenance() returns (notices: seq<Notice>)
      requires subscriptions.db == db && Inv(db.View())
      modifies db`subs
      ensures db.subs == Swept(db.plans, old(db.subs), db.clock) && Inv(db.View())
      ensures forall u :: |EndsTold(notices, u)| <= 1 && |StartsTold(notices, u)| <= 1
      ensures forall u, id: RowId :: id in EndsTold(notices, u) <==>
                id < |db.subs| && db.subs[id].user == u && Lapsed(old(db.subs)[id], db.clock)
      ensures forall u, id: RowId :: id in StartsTold(notices, u) <==>
                id < |db.subs| && db.subs[id].user == u && old(db.subs)[id].status.Queued? && db.subs[id].status.Active?
      ensures forall n | n in notices :: Tells(db.subs, n)
    {
      ghost var before := db.subs;
      var expired, promoted := subscriptions.ExpireAndPromote();
      SweepKeepsUsers(db.plans, before, db.clock);
      notices := NoticesFor(before, expired, promoted);
    }

    method NoticesFor(ghost before: seq<Subscription>, expired: seq<RowId>, promoted: seq<RowId>)
        returns (notices: seq<Notice>)
      requires SubsInv(db.plans, db.clock, db.subs) && SubsInv(db.plans, db.clock, before)
      requires |before| == |db.subs| && forall i | 0 <= i < |before| :: db.subs[i].user == before[i].user
      requires Distinct(expired) && forall id: RowId ::
          id in expired <==> id < |db.subs| && Lapsed(before[id], db.clock)
      requires Distinct(promoted)
      requires forall id: RowId ::
          id in promoted <==> id < |db.subs| && before[id].status.Queued? && db.subs[id].status.Active?
      ensures forall u :: |EndsTold(notices, u)| <= 1 && |StartsTold(notices, u)| <= 1
      ensures forall u, id: RowId :: id in EndsTold(notices, u) <==>
                id < |db.subs| && db.subs[id].user == u && Lapsed(before[id], db.clock)
      ensures forall u, id: RowId :: id in StartsTold(notices, u) <==>
                id < |db.subs| && db.subs[id].user == u && before[id].status.Queued? && db.subs[id].status.Active?
      ensures forall n | n in notices :: Tells(db.subs, n)
    {
      assert forall i | 0 <= i < |expired| :: expired[i] in expired;
      assert forall i | 0 <= i < |promoted| ::
          promoted[i] in promoted && RowOk(db.plans, db.clock, db.subs[promoted[i]]);
      var ended := EndedRows(expired);
      var started := StartedRows(promoted);
      notices := BuildMaintenanceNotifications(ended, started);
      NoticesTell(db.subs, expired, promoted, ended, started);
      forall u
        ensures |EndsTold(notices, u)| <= 1 && |StartsTold(notices, u)| <= 1
        ensures forall id: RowId :: id in EndsTold(notices, u) <==>
                  id < |db.subs| && db.subs[id].user == u && Lapsed(before[id], db.clock)
        ensures forall id: RowId :: id in StartsTold(notices, u) <==>
                  id < |db.subs| && db.subs[id].user == u && before[id].status.Queued? && db.subs[id].status.Active?
      {
        EventsTold(db.subs, before, db.clock, expired, promoted, ended, started, u);
      }
    }

    /** What the UPDATE returned, row by row. */
    method EndedRows(ids: seq<RowId>) returns (ended: seq<Ended>)
      requires forall i | 0 <= i < |ids| :: ids[i] < |db.subs|
      ensures AreEnded(db.subs, ids, ended)
    {
      ended := [];
      for i := 0 to |ids|
        invariant AreEnded(db.subs, ids[..i], ended)
      {
        ended := ended + [Ended(ids[i], db.subs[ids[i]].user, db.subs[ids[i]].plan)];
      }
      assert ids[..|ids|] == ids;
    }

    method StartedRows(ids: seq<RowId>) returns (started: seq<Started>)
      requires forall i | 0 <= i < |ids| :: ids[i] < |db.subs| && db.subs[ids[i]].expiresAt.Some?
      ensures AreStarted(db.subs, ids, started)
    {
      started := [];
      for i := 0 to |ids|
        invariant AreStarted(db.subs, ids[..i], started)
      {
        started := started + [Started(ids[i], db.subs[ids[i]].user, db.subs[ids[i]].plan,
            db.subs[ids[i]].expiresAt.value)];
      }
      assert ids[..|ids|] == ids;
    }

    /** Each notification written is what the next run deduplicates on. */
    method DoRenewalReminders()
      requires subscriptions.db == db
      modifies db`reminders
      ensures db.View() == Remind(old(db.View()))
    {
      var due := subscriptions.FindDueRenewalReminders();
      ghost var before := db.reminders;
      for i := 0 to |due|
        invariant db.reminders == before + due[..i]
      {
        assert due[..i + 1] == due[..i] + [due[i]];
        db.reminders := db.reminders + [due[i]];
      }
      assert due[..|due|] == due;
    }

    /** Ages out hosted and manual intents, then asks the providers about what is left. */
    method DoPaymentReconciliation(answers: map<RowId, ReportedStatus>)
      modifies db`payments
      ensures db.View() == Reconcile(old(db.View()), pollable, answers)
    {
      ghost var before := db.payments;
      ExpireStale();
      for k := 0 to |pollable|
        invariant |db.payments| == |before|
        invariant forall i | 0 <= i < |before| ::
                    db.payments[i] == Reconciled(before[i], db.clock, pollable[..k], AnswerFor(answers, i))
      {
        assert pollable[..k + 1] == pollable[..k] + [pollable[k]];
        if pollable[k] != "manual" {
          PollProvider(pollable[k], answers);
        }
      }
      assert pollable[..|pollable|] == pollable;
    }

    method ExpireStale()
      modifies db`payments
      ensures |db.payments| == |old(db.payments)|
      ensures forall i | 0 <= i < |db.payments| ::
                db.payments[i] == Reconciled(old(db.payments)[i], db.clock, [], Unknown)
    {
      ghost var before := db.payments;
      for i := 0 to |db.payments|
        invariant |db.payments| == |before|
        invariant forall j | 0 <= j < |before| ::
                    db.payments[j] == if j < i then Reconciled(before[j], db.clock, [], Unknown) else before[j]
      {
        var p := db.payments[i];
        if p.status.AwaitingProvider? && p.provider != "manual" && p.intentExpiresAt.Some?
            && p.intentExpiresAt.value < db.clock {
          db.payments := db.payments[i := p.(status := PaymentStatus.Expired)];
        } else if p.status.AwaitingProvider? && p.provider == "manual" && p.referenceCode.None?
                  && p.createdAt < db.clock - MANUAL_INTENT_ABANDON_DAYS * DAY_MS {
          db.payments := db.payments[i := p.(status := PaymentStatus.Expired)];
        }
      }
    }

    /** Payments still hanging with one provider for half an hour; the update is by id alone. */
    method PollProvider(code: string, answers: map<RowId, ReportedStatus>)
      requires code != "manual"
      modifies db`payments
      ensures |db.payments| == |old(db.payments)|
      ensures forall i | 0 <= i < |db.payments| ::
                db.payments[i] == AfterPoll(old(db.payments)[i], db.clock, code, AnswerFor(answers, i))
    {
      ghost var before := db.payments;
      for i := 0 to |db.payments|
        invariant |db.payments| == |before|
        invariant forall j | 0 <= j < |before| ::
                    db.payments[j] == if j < i then AfterPoll(before[j], db.clock, code, AnswerFor(answers, j))
                        else before[j]
      {
        var p := db.payments[i];
        if p.provider == code && Polled(p, db.clock, [code]) {
          var status := AnswerFor(answers, i);
          if status.Failed? || status.TimedOut? {
            db.payments := db.payments[i := p.(status := if status.Failed? then Rejected else PaymentStatus.Expired)];
          }
        }
      }
    }
  }

  function AfterPoll(p: Payment, clock: int, code: string, answer: ReportedStatus): Payment {
    if !Polled(p, clock, [code]) then p
    else if answer.Failed? then p.(status := Rejected)
    else if answer.TimedOut? then p.(status := PaymentStatus.Expired)
    else p
  }

  lemma SweepKeepsUsers(plans: PlanTable, subs: seq<Subscription>, clock: int)
    ensures forall i | 0 <= i < |subs| :: Swept(plans, subs, clock)[i].user == subs[i].user
  {
  }

  ghost predicate AreEnded(subs: seq<Subscription>, ids: seq<RowId>, ended: seq<Ended>) {
    && |ended| == |ids|
    && forall i | 0 <= i < |ids| :: ids[i] < |subs| && ended[i] == Ended(ids[i], subs[ids[i]].user, subs[ids[i]].plan)
  }

  ghost predicate AreStarted(subs: seq<Subscription>, ids: seq<RowId>, started: seq<Started>) {
    && |started| == |ids|
    && forall i | 0 <= i < |ids| ::
         && ids[i] < |subs| && subs[ids[i]].expiresAt.Some?
         && started[i] == Started(ids[i], subs[ids[i]].user, subs[ids[i]].plan, subs[ids[i]].expiresAt.value)
  }

  /** What a notice says of a row is what the row says. */
  ghost predicate Tells(subs: seq<Subscription>, n: Notice) {
    && n.id < |subs| && subs[n.id].user == n.user && subs[n.id].plan == n.plan
    && (!n.SubscriptionExpired? ==> subs[n.id].expiresAt == Some(n.expiresAt))
    && (n.SubscriptionRolledOver? ==>
          n.previousId < |subs| && subs[n.previousId].user == n.user && subs[n.previousId].plan == n.previousPlan)
  }

  lemma NoticesTell(subs: seq<Subscription>, expired: seq<RowId>, promoted: seq<RowId>, ended: seq<Ended>,
      started: seq<Started>)
    requires AreEnded(subs, expired, ended) && AreStarted(subs, promoted, started)
    ensures forall n | n in Notices(ended, started) :: Tells(subs, n)
  {
    NoticesSay(ended, started);
    forall n | n in Notices(ended, started)
      ensures Tells(subs, n)
    {
      assert Says(ended, started, n);
    }
  }

  /** The notices tell a user of their rows that lapsed and their rows that started, at most one of each. */
  lemma EventsTold(subs: seq<Subscription>, before: seq<Subscription>, clock: int,
                   expired: seq<RowId>, promoted: seq<RowId>,
                   ended: seq<Ended>, started: seq<Started>, user: UserId)
    requires OneActive(before) && OneActive(subs)
    requires |subs| == |before| && forall i | 0 <= i < |subs| :: subs[i].user == before[i].user
    requires Distinct(expired) && forall id: RowId :: id in expired <==> id < |subs| && Lapsed(before[id], clock)
    requires Distinct(promoted)
    requires forall id: RowId :: id in promoted <==> id < |subs| && before[id].status.Queued? && subs[id].status.Active?
    requires AreEnded(subs, expired, ended) && AreStarted(subs, promoted, started)
    ensures var notices := Notices(ended, started);
            && |EndsTold(notices, user)| <= 1 && |StartsTold(notices, user)| <= 1
            && (forall id: RowId :: id in EndsTold(notices, user) <==>
                  id < |subs| && subs[id].user == user && Lapsed(before[id], clock))
            && (forall id: RowId :: id in StartsTold(notices, user) <==>
                  id < |subs| && subs[id].user == user && before[id].status.Queued? && subs[id].status.Active?)
  {
    assert forall i | 0 <= i < |expired| :: expired[i] in expired;
    assert forall i | 0 <= i < |promoted| :: promoted[i] in promoted;
    EveryEventToldOnce(ended, started, user);
    OneEndEach(subs, before, expired, ended, user);
    OneStartEach(subs, promoted, started, user);
  }

  /** A user has at most one period that can lapse. */
  lemma OneEndEach(subs: seq<Subscription>, before: seq<Subscription>, ids: seq<RowId>, ended: seq<Ended>, user: UserId)
    requires OneActive(before) && |subs| == |before| && forall i | 0 <= i < |subs| :: subs[i].user == before[i].user
    requires AreEnded(subs, ids, ended) && Distinct(ids)
    requires forall i | 0 <= i < |ids| :: before[ids[i]].status.Active?
    ensures |EndsOf(ended, user)| <= 1
    ensures forall id: RowId :: id in EndsOf(ended, user) <==> id in ids && id < |subs| && subs[id].user == user
  {
    forall i, j | 0 <= i < j < |ended|
      ensures ended[i].user != ended[j].user
    {
      assert ids[i] < ids[j] || ids[j] < ids[i];
    }
    EndsOfAre(ended, user);
    forall id: RowId | id in ids && id < |subs| && subs[id].user == user
      ensures id in EndsOf(ended, user)
    {
      var i :| 0 <= i < |ids| && ids[i] == id;
      assert ended[i] in ended;
    }
  }

  /** A user has at most one row that starts: after the sweep it is their active one. */
  lemma OneStartEach(subs: seq<Subscription>, ids: seq<RowId>, started: seq<Started>, user: UserId)
    requires OneActive(subs) && AreStarted(subs, ids, started) && Distinct(ids)
    requires forall i | 0 <= i < |ids| :: subs[ids[i]].status.Active?
    ensures |StartsOf(started, user)| <= 1
    ensures forall id: RowId :: id in StartsOf(started, user) <==> id in ids && id < |subs| && subs[id].user == user
  {
    forall i, j | 0 <= i < j < |started|
      ensures started[i].user != started[j].user
    {
      assert ids[i] < ids[j] || ids[j] < ids[i];
    }
    StartsOfAre(started, user);
    forall id: RowId | id in ids && id < |subs| && subs[id].user == user
      ensures id in StartsOf(started, user)
    {
      var i :| 0 <= i < |ids| && ids[i] == id;
      assert started[i] in started;
    }
  }
}
