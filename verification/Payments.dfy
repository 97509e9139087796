/** The two callers that confirm payments: inbound webhooks and the admin's review. */
module Payments {
  import opened Wrappers
  import opened Database
  import opened SubscriptionRules
  import opened SubscriptionInvariant
  import opened PaymentRules
  import opened LedgerInvariant
  import opened Subscriptions

  /** UPDATE of the payment and minting in one transaction; a failed mint rolls the update back. */
  method ConfirmAndMint(db: Database, subscriptions: SubscriptionsService, id: RowId, payment: Payment)
    returns (r: Result<nat, Error>)
    requires subscriptions.db == db && SubsInv(db.plans, db.clock, db.subs) && id < |db.payments|
    modifies db`payments, db`subs
    ensures match Confirm(old(db.View()), id, payment)
            case Err(e) => r == Err(e) && db.View() == old(db.View())
            case Ok((t', minted)) => r == Ok(minted) && db.View() == t'
  {
    var saved := db.payments;
    db.payments := db.payments[id := payment];
    var m := subscriptions.MintForPayment(id);
    if m.Err? {
      db.payments := saved;
      assert db.subs == old(db.subs);
      return Err(m.error);
    }
    r := Ok(|m.value.rows|);
  }

  class WebhooksService {
    const db: Database
    const subscriptions: SubscriptionsService

    constructor (db: Database, subscriptions: SubscriptionsService)
      ensures this.db == db && this.subscriptions == subscriptions
    {
      this.db, this.subscriptions := db, subscriptions;
    }

    /** The event is the newest row; the rows before it stay. */
    method UpdateEvent(event: RowId, row: WebhookEvent, ghost earlier: seq<WebhookEvent>)
      requires event == |earlier| && |db.events| == event + 1 && db.events[..event] == earlier
      modifies db`events
      ensures db.events == earlier + [row]
    {
      db.events := db.events[event := row];
    }

    method ProcessDelivery(d: Delivery) returns (r: Result<WebhookOutcome, Error>)
      requires subscriptions.db == db && Inv(db.View())
      modifies db`events, db`payments, db`subs
      ensures (db.View(), r) == Process(old(db.View()), d)
      ensures Inv(db.View())
    {
      ProcessKeeps(db.View(), d);
      r := RecordAndSettle(d);
    }

    /** Record, verify, match, refuse replays, compare, and only then confirm and mint. */
    method RecordAndSettle(d: Delivery) returns (r: Result<WebhookOutcome, Error>)
      requires subscriptions.db == db && SubsInv(db.plans, db.clock, db.subs)
      modifies db`events, db`payments, db`subs
      ensures (db.View(), r) == Process(old(db.View()), d)
    {
      ghost var earlier := db.events;
      var event := |db.events|;
      db.events := db.events + [WebhookEvent(d.provider, false, None, None, None)];

      if d.provider !in PROVIDERS {
        UpdateEvent(event, db.events[event].(processed := Some(RecordedUnknownProvider)), earlier);
        return Ok(RecordedUnknownProvider);
      }
      if d.provider != "mock" || !d.signatureOk {
        UpdateEvent(event, db.events[event].(processed := Some(BadSignature)), earlier);
        return Ok(BadSignature);
      }
      UpdateEvent(event, db.events[event].(signatureOk := true), earlier);
      if d.parsed.None? {
        UpdateEvent(event, db.events[event].(processed := Some(Unparseable)), earlier);
        return Ok(Unparseable);
      }
      var parsed := d.parsed.value;
      UpdateEvent(event, db.events[event].(providerRef := Some(parsed.providerRef)), earlier);

      var id := FindPayment(db.payments, d.provider, parsed.providerRef);
      if id.None? {
        UpdateEvent(event, db.events[event].(processed := Some(PaymentNotFound)), earlier);
        return Ok(PaymentNotFound);
      }
      UpdateEvent(event, db.events[event].(payment := id), earlier);
      r := SettlePayment(event, id.value, parsed);
    }

    /** The rest, once the event is recorded and the payment found. */
    method SettlePayment(event: RowId, id: RowId, parsed: ParsedWebhook) returns (r: Result<WebhookOutcome, Error>)
      requires subscriptions.db == db && SubsInv(db.plans, db.clock, db.subs)
      requires event < |db.events| && id < |db.payments|
      modifies db`events, db`payments, db`subs
      ensures (db.View(), r) == Settle(old(db.View()), event, id, parsed)
    {
      var payment := db.payments[id];
      if payment.status.Confirmed? {
        Finish(event, AlreadyConfirmed);
        return Ok(AlreadyConfirmed);
      }
      if !ChargedAsAsked(payment, parsed) {
        db.payments := db.payments[id := payment.(status := Disputed)];
        Finish(event, AmountMismatch);
        return Ok(AmountMismatch);
      }
      if !parsed.status.Paid? {
        db.payments := db.payments[id := payment.(
          status := if parsed.status.Failed? then Rejected else PaymentStatus.Expired)];
        Finish(event, NotPaid);
        return Ok(NotPaid);
      }
      var confirmed := ConfirmAndMint(db, subscriptions, id, payment.(status := Confirmed));
      if confirmed.Err? {
        return Err(confirmed.error);
      }
      Finish(event, WebhookConfirmed);
      r := Ok(WebhookConfirmed);
    }

    method Finish(event: RowId, outcome: WebhookOutcome)
      requires event < |db.events|
      modifies db`events
      ensures db.events == old(db.events)[event := old(db.events)[event].(processed := Some(outcome))]
    {
      db.events := db.events[event := db.events[event].(processed := Some(outcome))];
    }
  }

  class AdminService {
    const db: Database
    const subscriptions: SubscriptionsService

    constructor (db: Database, subscriptions: SubscriptionsService)
      ensures this.db == db && this.subscriptions == subscriptions
    {
      this.db, this.subscriptions := db, subscriptions;
    }

    method ReviewPayment(id: RowId, decision: Decision, reason: Option<string>) returns (r: Result<nat, PaymentError>)
      requires subscriptions.db == db && Inv(db.View())
      modifies db`payments, db`subs
      ensures (db.View(), r) == Review(old(db.View()), id, decision, reason)
      ensures Inv(db.View())
    {
      ReviewKeeps(db.View(), id, decision, reason);
      if id >= |db.payments| {
        return Err(NoSuchPayment);
      }
      var payment := db.payments[id];
      if !Undecided(payment) {
        return Err(AlreadyDecided(payment.status));
      }
      if decision.Rejecting? && (reason.None? || reason.value == "") {
        return Err(ReasonRequired);
      }
      if decision.Rejecting? {
        db.payments := db.payments[id := payment.(rejectionReason := reason, status := Rejected)];
        return Ok(0);
      }
      var minted := ConfirmAndMint(db, subscriptions, id, payment.(rejectionReason := reason, status := Confirmed));
      r := if minted.Err? then Err(MintRefused(minted.error)) else Ok(minted.value);
    }
  }
}
