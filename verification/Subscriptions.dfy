/** Buying, minting, activating and sweeping subscriptions. */
module Subscriptions {
  import opened Wrappers
  import opened Vat
  import opened Database
  import opened SubscriptionRules
  import opened SubscriptionInvariant
  import opened PaymentRules
  import opened LedgerInvariant

  class SubscriptionsService {
    const db: Database
    const vatRate: RateSetting

    constructor (db: Database, vatRate: RateSetting)
      ensures this.db == db && this.vatRate == vatRate
    {
      this.db, this.vatRate := db, vatRate;
    }

    /** intent is what the provider answers when it is asked. */
    method CreatePaymentIntent(order: Purchase, intent: Option<Intent>) returns (r: Result<RowId, PaymentError>)
      modifies db`payments
      ensures (db.View(), r) == CreateIntent(old(db.View()), order, vatRate, intent)
    {
      if order.plan !in db.plans || !db.plans[order.plan].onSale {
        return Err(PlanUnavailable);
      }
      if order.quantity == 0 {
        return Err(QuantityRefused);
      }
      var b := Quote(db.plans[order.plan].priceUsd, order.quantity, ResolveVatRate(vatRate));
      var id := |db.payments|;
      ghost var before := db.payments;
      db.payments := db.payments + [
        Payment(order.user, Some(order.plan), order.quantity, b.subtotalUsd, b.vatRate, b.vatUsd, b.totalUsd, "USD",
                order.provider, None, Pending, order.transferService, order.referenceCode, None, None, db.clock)];
      if intent.None? {
        return Err(ProviderFailed);
      }
      assert db.payments[..id] == before;
      if FindPayment(db.payments, order.provider, intent.value.providerRef).Some? {
        return Err(DuplicateReference);
      }
      db.payments := db.payments[id := db.payments[id].(providerRef := Some(intent.value.providerRef),
                                                        status := AwaitingProvider,
                                                        intentExpiresAt := intent.value.expiresAt)];
      assert db.payments == before + [db.payments[id]];
      r := Ok(id);
    }

    method ReportTransfer(user: UserId, id: RowId, service: string, reference: string)
      returns (r: Result<PaymentStatus, PaymentError>)
      modifies db`payments
      ensures (db.View(), r) == Report(old(db.View()), user, id, service, reference)
    {
      if id >= |db.payments| || db.payments[id].planner != user || !Undecided(db.payments[id]) {
        return Err(NothingToUpdate);
      }
      db.payments := db.payments[id := db.payments[id].(transferService := Some(service),
          referenceCode := Some(reference))];
      r := Ok(db.payments[id].status);
    }

    /** Starts a banked credit; the WHERE clause and the index have the last word. */
    method ActivateCredit(user: UserId, id: RowId) returns (r: Result<Subscription, Error>)
      modifies db`subs
      ensures match Activate(old(db.View()), user, id)
              case Err(e) => r == Err(e) && db.subs == old(db.subs)
              case Ok(subs) => r == Ok(subs[id]) && db.subs == subs
    {
      if id >= |db.subs| || db.subs[id].user != user {
        return Err(NotFound);
      }
      var credit := db.subs[id];
      if !credit.status.Ready? {
        return Err(if credit.status.Active? then AlreadyRunning else NotReady(credit.status));
      }
      var running := GetActiveSubscription(db.subs, user, db.clock);
      if running.Some? {
        return Err(WouldBeWasted(db.subs[running.value].plan));
      }
      if credit.plan !in db.plans {
        return Err(PlanNotFound);
      }
      var updated := db.UpdateSubscription(id, Activated(db.plans, credit, db.clock));
      if !updated {
        return Err(UniqueViolation);
      }
      r := Ok(db.subs[id]);
    }

    /** Runs inside the caller's transaction; mints once for a payment, however often it is asked. */
    method MintForPayment(id: RowId) returns (r: Result<Minted, Error>)
      requires SubsInv(db.plans, db.clock, db.subs)
      modifies db`subs
      ensures r == Mint(old(db.View()), id)
      ensures db.subs == old(db.subs) + if r.Ok? then r.value.rows else []
      ensures SubsInv(db.plans, db.clock, db.subs)
    {
      ghost var before := db.View();
      if id >= |db.payments| {
        return Err(NotFound);
      }
      var payment := db.payments[id];
      if payment.plan.None? {
        return Ok(Minted([], false));
      }
      if exists s :: s in db.subs && s.payment == id {
        return Ok(Minted([], true));
      }
      if payment.plan.value !in db.plans {
        return Err(PlanNotFound);
      }
      var rows;
      if payment.plan.value.Day? {
        rows := CreditRows(payment.planner, id, payment.quantity);
        db.subs := db.subs + rows;
      } else {
        rows := MintDatedPlan(payment.planner, id, payment.plan.value, payment.quantity);
      }
      r := Ok(Minted(rows, false));
      MintKeeps(before, id);
    }

    /** The first period starts at once if nothing is there; everything else queues behind the chain. */
    method MintDatedPlan(user: UserId, payment: RowId, plan: PlanCode, quantity: nat) returns (rows: seq<Subscription>)
      requires SubsInv(db.plans, db.clock, db.subs) && plan in db.plans
      modifies db`subs
      ensures rows == DatedRows(db.plans, db.clock, ChainEnd(db.plans, db.clock, old(db.subs), user), user, plan,
          payment, quantity)
      ensures db.subs == old(db.subs) + rows
    {
      ghost var before := db.subs;
      ghost var end := ChainEnd(db.plans, db.clock, before, user);
      var chainEnd := FindChainEnd(user);
      rows := [];
      assert before + rows == before;
      for i := 0 to quantity
        invariant rows == DatedRows(db.plans, db.clock, end, user, plan, payment, i)
        invariant db.subs == before + rows
        invariant chainEnd == ChainEnd(db.plans, db.clock, db.subs, user)
      {
        rows, chainEnd := MintOneMore(user, payment, plan, rows, chainEnd, before, i);
      }
    }

    /** One round of the loop: the i-th row goes in behind the rows minted so far. */
    method MintOneMore(user: UserId, payment: RowId, plan: PlanCode, rows: seq<Subscription>, chainEnd: Option<int>,
                       ghost before: seq<Subscription>, ghost i: nat)
      returns (more: seq<Subscription>, newEnd: Option<int>)
      requires SubsInv(db.plans, db.clock, before) && plan in db.plans
      requires rows == DatedRows(db.plans, db.clock, ChainEnd(db.plans, db.clock, before, user), user, plan, payment, i)
      requires db.subs == before + rows && chainEnd == ChainEnd(db.plans, db.clock, db.subs, user)
      modifies db`subs
      ensures more == DatedRows(db.plans, db.clock, ChainEnd(db.plans, db.clock, before, user), user, plan,
          payment, i + 1)
      ensures db.subs == before + more && newEnd == ChainEnd(db.plans, db.clock, db.subs, user)
    {
      DatedRowIsNext(db.plans, db.clock, before, user, plan, payment, i);
      var row;
      row, newEnd := InsertNext(user, payment, plan, chainEnd);
      more := rows + [row];
      assert before + rows + [row] == before + more;
    }

    /** One INSERT at the end of the chain, which the index has no reason to refuse, and the chain's new end. */
    method InsertNext(user: UserId, payment: RowId, plan: PlanCode, chainEnd: Option<int>)
      returns (row: Subscription, newEnd: Option<int>)
      requires SubsInv(db.plans, db.clock, db.subs) && plan in db.plans
      requires chainEnd == ChainEnd(db.plans, db.clock, db.subs, user)
      modifies db`subs
      ensures row == NextRow(db.plans, db.clock, chainEnd, user, plan, payment)
      ensures db.subs == old(db.subs) + [row]
      ensures newEnd == ChainEnd(db.plans, db.clock, db.subs, user)
    {
      ChainEndIs(db.plans, db.clock, db.subs, user);
      NextRowKeeps(db.plans, db.clock, db.subs, NextRow(db.plans, db.clock, chainEnd, user, plan, payment));
      var ms := PlanMs(db.plans, plan);
      var inserted;
      if chainEnd.None? {
        row := Subscription(user, plan, payment, Active, None, Some(db.clock), Some(db.clock + ms));
        inserted := db.InsertSubscription(row);
        newEnd := row.expiresAt;
      } else {
        row := Subscription(user, plan, payment, Queued, None, chainEnd, None);
        inserted := db.InsertSubscription(row);
        newEnd := Some(chainEnd.value + ms);
      }
      assert inserted;
    }

    /** Walks the queue from the active row's expiry, or from now when only a queue is there. */
    method FindChainEnd(user: UserId) returns (chainEnd: Option<int>)
      ensures chainEnd == ChainEnd(db.plans, db.clock, db.subs, user)
    {
      var now := db.clock;
      var active := ActiveRow(db.subs, user);
      chainEnd := None;
      if active.Some? && db.subs[active.value].expiresAt.Some? {
        chainEnd := db.subs[active.value].expiresAt;
      } else if HasQueued(db.subs, user) {
        chainEnd := Some(now);
      }
      ghost var start := chainEnd;
      for i := 0 to |db.subs|
        invariant chainEnd == if start.None? then None else Some(start.value + QueuedMs(db.plans, db.subs[..i], user))
      {
        assert db.subs[..i + 1][..i] == db.subs[..i];
        if db.subs[i].user == user && db.subs[i].status.Queued? {
          chainEnd := Some((if chainEnd.Some? then chainEnd.value else now) + PlanMs(db.plans, db.subs[i].plan));
        }
      }
      assert db.subs[..|db.subs|] == db.subs;
    }

    /** Expires what has run out, then starts the next period of everyone left without one. */
    method ExpireAndPromote() returns (expired: seq<RowId>, promoted: seq<RowId>)
      requires Inv(db.View())
      modifies db`subs
      ensures db.subs == Swept(db.plans, old(db.subs), db.clock) && Inv(db.View())
      ensures Distinct(expired) && Distinct(promoted)
      ensures forall id: RowId :: id in expired <==> id < |db.subs| && Lapsed(old(db.subs)[id], db.clock)
      ensures forall id: RowId :: id in promoted <==>
                id < |db.subs| && old(db.subs)[id].status.Queued? && db.subs[id].status.Active?
    {
      ghost var before := db.subs;
      expired := ExpireLapsed();
      promoted := PromoteWaiting();
      SweepOutcome(db.plans, before, db.clock);
      SweepKeeps(db.plans, db.clock, before);
      SubsStepKeeps(db.payments, before, db.subs);
    }

    method PromoteWaiting() returns (promoted: seq<RowId>)
      modifies db`subs
      ensures db.subs == AfterPromotion(db.plans, old(db.subs), db.clock, Waiting(old(db.subs)))
      ensures Distinct(promoted)
      ensures forall id: RowId :: id in promoted <==>
                id < |db.subs| && old(db.subs)[id].user in Waiting(old(db.subs)) && NextInLine(old(db.subs), id)
    {
      ghost var after, done := db.subs, {};
      var waiting := Waiting(db.subs);
      promoted := [];
      assert AfterPromotion(db.plans, after, db.clock, done) == after;
      while waiting != {}
        invariant done + waiting == Waiting(after) && done !! waiting
        invariant db.subs == AfterPromotion(db.plans, after, db.clock, done)
        invariant Distinct(promoted)
        invariant forall id: RowId ::
            id in promoted <==> id < |after| && after[id].user in done && NextInLine(after, id)
      {
        var user :| user in waiting;
        var next := NextFor(after, done, user);
        PromoteOne(db.plans, after, db.clock, done, user, next);
        var updated := db.UpdateSubscription(next, Promoted(db.plans, db.subs[next], db.clock));
        assert updated;
        promoted := promoted + [next];
        waiting, done := waiting - {user}, done + {user};
      }
      assert done == Waiting(after);
    }

    /** The query inside the promotion loop: a waiting user's oldest queued row, untouched so far. */
    method NextFor(ghost after: seq<Subscription>, ghost done: set<UserId>, user: UserId) returns (next: RowId)
      requires user in Waiting(after) && user !in done
      requires db.subs == AfterPromotion(db.plans, after, db.clock, done)
      ensures next < |db.subs| && db.subs[next] == after[next] && after[next].user == user && NextInLine(after, next)
      ensures !HasActive(db.subs, user)
      ensures forall i | 0 <= i < |after| && after[i].user == user && NextInLine(after, i) :: i == next
    {
      assert forall i | 0 <= i < |after| && after[i].user == user :: db.subs[i] == after[i];
      assert HasQueued(db.subs, user) by {
        var k :| 0 <= k < |after| && after[k].status.Queued? && !HasActive(after, after[k].user)
            && after[k].user == user;
        assert db.subs[k].status.Queued?;
      }
      assert !HasActive(after, user);
      next := OldestQueued(db.subs, user).value;
    }

    /** UPDATE .. WHERE status = 'active' AND expires_at <= now() RETURNING id. */
    method ExpireLapsed() returns (expired: seq<RowId>)
      modifies db`subs
      ensures db.subs == AfterExpiry(old(db.subs), db.clock)
      ensures Distinct(expired)
      ensures forall id: RowId :: id in expired <==> id < |db.subs| && Lapsed(old(db.subs)[id], db.clock)
    {
      ghost var before := db.subs;
      expired := [];
      for i := 0 to |db.subs|
        invariant |db.subs| == |before|
        invariant forall k | 0 <= k < |before| ::
                    db.subs[k] == if k < i then AfterExpiry(before, db.clock)[k] else before[k]
        invariant Distinct(expired)
        invariant forall id: RowId :: id in expired <==> id < i && Lapsed(before[id], db.clock)
      {
        if Lapsed(db.subs[i], db.clock) {
          db.subs := db.subs[i := db.subs[i].(status := SubscriptionStatus.Expired)];
          expired := expired + [i];
        }
      }
    }

    /** Subscriptions in a reminder window that have not been warned there. */
    method FindDueRenewalReminders() returns (due: seq<Reminder>)
      ensures due == Due(db.View(), |db.subs|)
    {
      due := [];
      for i := 0 to |db.subs|
        invariant due == Due(db.View(), i)
      {
        var days := Warning(db.subs[i], db.clock);
        if days.Some? && Reminder(i, days.value) !in db.reminders {
          due := due + [Reminder(i, days.value)];
        }
      }
    }
  }

  /** The i-th row is what the chain so far calls for. */
  lemma DatedRowIsNext(plans: PlanTable, clock: int, subs: seq<Subscription>, user: UserId, plan: PlanCode,
                       payment: RowId, i: nat)
    requires SubsInv(plans, clock, subs) && plan in plans
    ensures var end := ChainEnd(plans, clock, subs, user);
            var rows := DatedRows(plans, clock, end, user, plan, payment, i);
            var chainEnd := ChainEnd(plans, clock, subs + rows, user);
            && SubsInv(plans, clock, subs + rows)
            && DatedRows(plans, clock, end, user, plan, payment, i + 1)
               == rows + [NextRow(plans, clock, chainEnd, user, plan, payment)]
  {
    var end := ChainEnd(plans, clock, subs, user);
    DatedRowsKeep(plans, clock, subs, user, plan, payment, i);
    DatedRowKeeps(plans, clock, subs + DatedRows(plans, clock, end, user, plan, payment, i), end, user, plan,
        payment, i);
  }

  lemma PromoteOne(plans: PlanTable, subs: seq<Subscription>, clock: int, done: set<UserId>, user: UserId, next: RowId)
    requires next < |subs| && user !in done && subs[next].user == user && NextInLine(subs, next)
    requires forall i | 0 <= i < |subs| && subs[i].user == user && NextInLine(subs, i) :: i == next
    ensures AfterPromotion(plans, subs, clock, done)[next] == subs[next]
    ensures AfterPromotion(plans, subs, clock, done)[next := Promoted(plans, subs[next], clock)]
            == AfterPromotion(plans, subs, clock, done + {user})
  {
  }

  lemma SweepOutcome(plans: PlanTable, subs: seq<Subscription>, clock: int)
    ensures var after := AfterExpiry(subs, clock);
            forall i | 0 <= i < |subs| ::
              subs[i].status.Queued? && Swept(plans, subs, clock)[i].status.Active?
              <==> after[i].user in Waiting(after) && NextInLine(after, i)
  {
    var after := AfterExpiry(subs, clock);
    assert forall i | 0 <= i < |subs| && NextInLine(after, i) :: after[i].status.Queued? && subs[i].status.Queued?;
  }

  ghost predicate Distinct(ids: seq<RowId>) {
    forall i, j | 0 <= i < j < |ids| :: ids[i] != ids[j]
  }
}
