/** What every kind of decision does to a payment, told from the request and the row alone. */
module Settlement {
  import opened Wrappers
  import opened Database
  import opened SubscriptionRules
  import opened PaymentRules
  import opened LedgerInvariant
  import opened LedgerRuns
  import opened LedgerTheorems

  // ---- Webhooks ----

  /** A signed webhook about this payment; only the mock provider signs. */
  predicate Names(d: Delivery, p: Payment) {
    && d.provider == "mock" == p.provider && d.signatureOk
    && d.parsed.Some? && p.providerRef == Some(d.parsed.value.providerRef)
  }

  /** The same letter, in either case. */
  predicate SameLetter(a: char, b: char) {
    || a == b
    || ('a' <= a <= 'z' && b as int + 32 == a as int)
    || ('a' <= b <= 'z' && a as int + 32 == b as int)
  }

  predicate SameLetters(a: string, b: string) {
    |a| == |b| && forall i | 0 <= i < |a| :: SameLetter(a[i], b[i])
  }

  /** Less than a cent away from what was asked, in the currency asked for. */
  predicate AsAsked(d: Delivery, p: Payment)
    requires d.parsed.Some?
  {
    && d.parsed.value.amount.Some?
    && p.amountUsd - 0.01 < d.parsed.value.amount.value < p.amountUsd + 0.01
    && SameLetters(d.parsed.value.currency, p.currency)
  }

  lemma CaseIsIgnored(a: string, b: string)
    ensures Upper(a) == Upper(b) <==> SameLetters(a, b)
  {
    assert |Upper(a)| == |a| && |Upper(b)| == |b|;
    if Upper(a) == Upper(b) {
      forall i | 0 <= i < |a|
        ensures SameLetter(a[i], b[i])
      {
        assert Upper(a)[i] == Upper(b)[i];
      }
    }
    if SameLetters(a, b) {
      forall i | 0 <= i < |a|
        ensures Upper(a)[i] == Upper(b)[i]
      {
        assert SameLetter(a[i], b[i]);
      }
    }
  }

  lemma AskedIs(d: Delivery, p: Payment)
    requires d.parsed.Some?
    ensures ChargedAsAsked(p, d.parsed.value) <==> AsAsked(d, p)
  {
    CaseIsIgnored(d.parsed.value.currency, p.currency);
  }

  /** The payment a signed webhook is about is the one that carries its reference. */
  lemma NamedIsFound(t: Tables, d: Delivery, id: RowId)
    requires ReferencesUnique(t.payments) && id < |t.payments|
    ensures Names(d, t.payments[id]) <==> Verdict(t, d).1 == Some(id)
  {
    if Names(d, t.payments[id]) {
      var found := FindPayment(t.payments, "mock", d.parsed.value.providerRef);
      assert found.Some? && found.value == id;
    }
  }

  /**
   * What a delivery makes of a payment that is not confirmed: nothing unless
   * it names it; a dispute if the amount or the currency is off; else what
   * the provider reports.
   */
  lemma DeliveryDecides(t: Tables, d: Delivery, id: RowId)
    requires Reachable(t) && id < |t.payments| && !t.payments[id].status.Confirmed?
    ensures id < |Apply(t, Deliver(d)).payments|
    ensures var p, p' := t.payments[id], Apply(t, Deliver(d)).payments[id];
            if !Names(d, p) then p' == p
            else if !AsAsked(d, p) then p' == p.(status := Disputed)
            else match d.parsed.value.status
              case Paid => p' == if CanMint(t, p) then p.(status := Confirmed) else p
              case Failed => p' == p.(status := Rejected)
              case TimedOut => p' == p.(status := PaymentStatus.Expired)
              case Unknown => p' == p.(status := PaymentStatus.Expired)
  {
    ReachableInv(t);
    NamedIsFound(t, d, id);
    if Names(d, t.payments[id]) {
      AskedIs(d, t.payments[id]);
      NamedIsSettled(t, d, id);
    } else {
      OthersUntouched(t, d, id);
    }
  }

  lemma OthersUntouched(t: Tables, d: Delivery, id: RowId)
    requires id < |t.payments| && Verdict(t, d).1 != Some(id)
    ensures id < |Process(t, d).0.payments| && Process(t, d).0.payments[id] == t.payments[id]
  {
  }

  lemma NamedIsSettled(t: Tables, d: Delivery, id: RowId)
    requires Inv(t) && id < |t.payments| && !t.payments[id].status.Confirmed? && Verdict(t, d).1 == Some(id)
    ensures id < |Process(t, d).0.payments|
    ensures var p, p' := t.payments[id], Process(t, d).0.payments[id];
            if !ChargedAsAsked(p, d.parsed.value) then p' == p.(status := Disputed)
            else match d.parsed.value.status
              case Paid => p' == if CanMint(t, p) then p.(status := Confirmed) else p
              case Failed => p' == p.(status := Rejected)
              case TimedOut => p' == p.(status := PaymentStatus.Expired)
              case Unknown => p' == p.(status := PaymentStatus.Expired)
  {
    if ChargedAsAsked(t.payments[id], d.parsed.value) && d.parsed.value.status.Paid? {
      VerdictMints(t, d, id);
      PaidIsConfirmed(t, d, id);
    }
  }

  lemma PaidIsConfirmed(t: Tables, d: Delivery, id: RowId)
    requires id < |t.payments| && Verdict(t, d) == (WebhookConfirmed, Some(id))
    ensures id < |Process(t, d).0.payments|
    ensures var p, p' := t.payments[id], Process(t, d).0.payments[id];
            p' == if p'.status.Confirmed? then p.(status := Confirmed) else p
  {
  }

  /** A payment becomes disputed by nothing but a signed webhook for something else than was asked. */
  lemma OnlyTheseDispute(t: Tables, op: Op, id: RowId)
    requires Reachable(t) && id < |t.payments| && !t.payments[id].status.Confirmed? && !t.payments[id].status.Disputed?
    ensures id < |Apply(t, op).payments|
    ensures Apply(t, op).payments[id].status.Disputed? <==>
              op.Deliver? && Names(op.delivery, t.payments[id]) && !AsAsked(op.delivery, t.payments[id])
  {
    StepFollows(t, op);
    if op.Deliver? {
      DeliveryDecides(t, op.delivery, id);
    }
  }

  /** Each delivery leaves one record, with the payment it names and what became of it. */
  lemma DeliveryIsRecorded(t: Tables, d: Delivery)
    requires Reachable(t)
    ensures var events, n, signed := Apply(t, Deliver(d)).events, |t.events|, d.provider == "mock" && d.signatureOk;
            && |events| == n + 1 && events[..n] == t.events
            && events[n].provider == d.provider && events[n].signatureOk == signed
            && events[n].providerRef == (if signed && d.parsed.Some? then Some(d.parsed.value.providerRef) else None)
            && (forall id: RowId | id < |t.payments| :: events[n].payment == Some(id) <==> Names(d, t.payments[id]))
            && (events[n].payment.Some? ==> events[n].payment.value < |t.payments|)
  {
    ReachableInv(t);
    forall id: RowId | id < |t.payments|
      ensures Verdict(t, d).1 == Some(id) <==> Names(d, t.payments[id])
    {
      NamedIsFound(t, d, id);
    }
    RecordIs(t, d);
  }

  lemma RecordIs(t: Tables, d: Delivery)
    ensures var events, n := Process(t, d).0.events, |t.events|;
            && |events| == n + 1 && events[..n] == t.events && events[n].provider == d.provider
            && events[n].signatureOk == (d.provider == "mock" && d.signatureOk)
            && events[n].providerRef
                == (if events[n].signatureOk && d.parsed.Some? then Some(d.parsed.value.providerRef) else None)
            && events[n].payment == Verdict(t, d).1
  {
  }

  /** The outcome on record, for a delivery that names no payment. */
  lemma UnnamedOutcome(t: Tables, d: Delivery)
    requires Reachable(t) && forall id: RowId | id < |t.payments| :: !Names(d, t.payments[id])
    ensures var r := Apply(t, Deliver(d));
            && |r.events| > |t.events| && r.payments == t.payments && r.subs == t.subs
            && r.events[|t.events|].processed == Some(
                 if d.provider !in {"manual", "mock", "whish", "omt"} then RecordedUnknownProvider
                 else if d.provider != "mock" || !d.signatureOk then BadSignature
                 else if d.parsed.None? then Unparseable
                 else PaymentNotFound)
  {
    ReachableInv(t);
    if Verdict(t, d).1.Some? {
      NamedIsFound(t, d, Verdict(t, d).1.value);
    }
  }

  /** The outcome on record, for a delivery that names one; none if minting was refused and all of it rolled back. */
  lemma NamedOutcome(t: Tables, d: Delivery, id: RowId)
    requires Reachable(t) && id < |t.payments| && Names(d, t.payments[id])
    ensures var r, p := Apply(t, Deliver(d)), t.payments[id];
            && |r.events| > |t.events|
            && r.events[|t.events|].processed ==
                 if p.status.Confirmed? then Some(AlreadyConfirmed)
                 else if !AsAsked(d, p) then Some(AmountMismatch)
                 else if !d.parsed.value.status.Paid? then Some(NotPaid)
                 else if CanMint(t, p) then Some(WebhookConfirmed) else None
  {
    ReachableInv(t);
    NamedIsFound(t, d, id);
    AskedIs(d, t.payments[id]);
    if !t.payments[id].status.Confirmed? && AsAsked(d, t.payments[id]) && d.parsed.value.status.Paid? {
      MintIsRefused(t, d, id);
    }
  }

  lemma MintIsRefused(t: Tables, d: Delivery, id: RowId)
    requires Inv(t) && id < |t.payments| && !t.payments[id].status.Confirmed?
        && Verdict(t, d) == (WebhookConfirmed, Some(id))
    ensures |Process(t, d).0.events| > |t.events|
    ensures Process(t, d).0.events[|t.events|].processed == if CanMint(t, t.payments[id]) then Some(WebhookConfirmed)
        else None
  {
    CountForNone(t.subs, id);
    assert CountFor(t.subs, id) == Owed(t.payments[id]);
  }

  /** The provider is answered with the outcome on record, or told to try again when there is none. */
  lemma DeliveryIsAnswered(t: Tables, d: Delivery)
    requires Reachable(t)
    ensures |Process(t, d).0.events| > |t.events|
    ensures var outcome := Process(t, d).0.events[|t.events|].processed;
            Process(t, d).1 == if outcome.Some? then Ok(outcome.value) else Err(PlanNotFound)
  {
    ReachableInv(t);
    var (outcome, id) := Verdict(t, d);
    if outcome.WebhookConfirmed? {
      MintIsRefused(t, d, id.value);
      ErrIsPlan(t, d, id.value);
    }
  }

  lemma ErrIsPlan(t: Tables, d: Delivery, id: RowId)
    requires Inv(t) && id < |t.payments| && Verdict(t, d) == (WebhookConfirmed, Some(id))
    ensures Process(t, d).1 == if CanMint(t, t.payments[id]) then Ok(WebhookConfirmed) else Err(PlanNotFound)
  {
    CountForNone(t.subs, id);
    assert CountFor(t.subs, id) == Owed(t.payments[id]);
  }

  // ---- Admins and buyers ----

  /** An admin decides a payment that waits for a decision, a rejection only with a reason, and touches no other. */
  lemma AdminDecides(t: Tables, id: RowId, decision: Decision, reason: Option<string>, other: RowId)
    requires Reachable(t) && other < |t.payments|
    ensures var t' := Apply(t, ReviewPayment(id, decision, reason));
            && |t'.payments| == |t.payments|
            && var p, p' := t.payments[other], t'.payments[other];
               if other != id || !(p.status.Pending? || p.status.AwaitingProvider?) then p' == p
               else match decision
                 case Rejecting =>
                   p' == if reason.Some? && reason.value != ""
                       then p.(status := Rejected, rejectionReason := reason) else p
                 case Confirming => p' == if CanMint(t, p)
                     then p.(status := Confirmed, rejectionReason := reason) else p
  {
    if other == id && !t.payments[id].status.Confirmed? && decision.Confirming? {
      AdminConfirms(t, id, reason);
    }
  }

  /** A buyer's report changes two fields of their own payment while it waits for a decision, and nothing else. */
  lemma ReportChangesTheTransfer(t: Tables, user: UserId, id: RowId, service: string, reference: string, other: RowId)
    requires other < |t.payments|
    ensures var t' := Apply(t, ReportTransfer(user, id, service, reference));
            && t' == t.(payments := t'.payments) && |t'.payments| == |t.payments|
            && var p := t.payments[other];
               t'.payments[other] ==
                 if other == id && p.planner == user && (p.status.Pending? || p.status.AwaitingProvider?)
                 then p.(transferService := Some(service), referenceCode := Some(reference)) else p
    ensures Report(t, user, id, service, reference).1
            == if id < |t.payments| && t.payments[id].planner == user
                  && (t.payments[id].status.Pending? || t.payments[id].status.AwaitingProvider?)
               then Ok(t.payments[id].status) else Err(NothingToUpdate)
  {
  }

  /** What an admin is answered: the rows minted, or what stands in the way. */
  lemma AdminIsAnswered(t: Tables, id: RowId, decision: Decision, reason: Option<string>)
    requires Reachable(t)
    ensures var r, known := Review(t, id, decision, reason).1, id < |t.payments|;
            && (r == Err(NoSuchPayment) <==> !known)
            && (known && !(t.payments[id].status.Pending? || t.payments[id].status.AwaitingProvider?) ==>
                  r == Err(AlreadyDecided(t.payments[id].status)))
            && (known && (t.payments[id].status.Pending? || t.payments[id].status.AwaitingProvider?) ==>
                  var p := t.payments[id];
                  r == match decision
                    case Rejecting => if reason.Some? && reason.value != "" then Ok(0) else Err(ReasonRequired)
                    case Confirming =>
                      if CanMint(t, p) then Ok(if p.plan.Some? then p.quantity else 0)
                      else Err(MintRefused(PlanNotFound)))
  {
    if id < |t.payments| && !t.payments[id].status.Confirmed? {
      ReachableInv(t);
      CountForNone(t.subs, id);
      assert CountFor(t.subs, id) == Owed(t.payments[id]);
    }
  }

  // ---- Reconciliation ----

  /** A hosted checkout past its expiry, or a manual intent more than thirty days old with no transfer reported. */
  predicate AgedOut(p: Payment, clock: int) {
    && p.status.AwaitingProvider?
    && (|| (p.provider != "manual" && p.intentExpiresAt.Some? && p.intentExpiresAt.value < clock)
        || (p.provider == "manual" && p.referenceCode.None? && clock - p.createdAt > 30 * 86_400_000))
  }

  /** Hanging for more than half an hour with a provider that can be asked about it. */
  predicate AskedAbout(p: Payment, clock: int, pollable: seq<string>) {
    && p.status.AwaitingProvider? && !AgedOut(p, clock)
    && p.provider in pollable && p.provider != "manual" && p.providerRef.Some? && clock - p.createdAt > 30 * 60_000
  }

  predicate Answered(answers: map<RowId, ReportedStatus>, id: RowId, status: ReportedStatus) {
    id in answers && answers[id] == status
  }

  /**
   * What a reconciliation makes of a payment: it ages out, or takes what its provider answers, and
   * never becomes confirmed.
   */
  lemma ReconciliationDecides(t: Tables, pollable: seq<string>, answers: map<RowId, ReportedStatus>, id: RowId)
    requires id < |t.payments|
    ensures var t' := Apply(t, ReconcilePayments(pollable, answers));
            && t' == t.(payments := t'.payments) && |t'.payments| == |t.payments|
            && var p := t.payments[id];
               t'.payments[id] ==
                 if AgedOut(p, t.clock) then p.(status := PaymentStatus.Expired)
                 else if AskedAbout(p, t.clock, pollable) && Answered(answers, id, Failed) then p.(status := Rejected)
                 else if AskedAbout(p, t.clock, pollable) && Answered(answers, id, TimedOut) then
                   p.(status := PaymentStatus.Expired)
                 else p
  {
  }

  /** A checkout still good, and a manual intent reported or no more than thirty days old, is never aged out. */
  lemma LiveIntentsAreSpared(t: Tables, pollable: seq<string>, answers: map<RowId, ReportedStatus>, id: RowId)
    requires id < |t.payments| && id !in answers
    requires var p := t.payments[id];
             || !p.status.AwaitingProvider?
             || (p.provider != "manual" && (p.intentExpiresAt.Some? ==> t.clock <= p.intentExpiresAt.value))
             || (p.provider == "manual" && (p.referenceCode.Some? || t.clock <= p.createdAt + 30 * 86_400_000))
    ensures |Apply(t, ReconcilePayments(pollable, answers)).payments| == |t.payments|
    ensures Apply(t, ReconcilePayments(pollable, answers)).payments[id] == t.payments[id]
  {
    ReconciliationDecides(t, pollable, answers, id);
  }

  // ---- Every way to be rejected, and to expire ----

  /** A payment that is not rejected becomes so by a webhook, an admin or a poll, and each only on its own terms. */
  lemma OnlyTheseReject(t: Tables, op: Op, id: RowId)
    requires Reachable(t) && id < |t.payments| && !t.payments[id].status.Confirmed? && !t.payments[id].status.Rejected?
    ensures id < |Apply(t, op).payments|
    ensures var p := t.payments[id];
            Apply(t, op).payments[id].status.Rejected? <==>
              || (op.Deliver? && Names(op.delivery, p) && AsAsked(op.delivery, p)
                  && op.delivery.parsed.value.status.Failed?)
              || (op.ReviewPayment? && op.id == id && op.decision.Rejecting? && op.reason.Some? && op.reason.value != ""
                  && (p.status.Pending? || p.status.AwaitingProvider?))
              || (op.ReconcilePayments? && AskedAbout(p, t.clock, op.pollable) && Answered(op.answers, id, Failed))
  {
    StepFollows(t, op);
    match op
    case Deliver(d) => DeliveryDecides(t, d, id);
    case ReviewPayment(reviewed, decision, reason) => AdminDecides(t, reviewed, decision, reason, id);
    case ReconcilePayments(pollable, answers) => ReconciliationDecides(t, pollable, answers, id);
    case _ =>
  }

  /** A payment that has not expired does so by a webhook or a reconciliation, and each only on its own terms. */
  lemma OnlyTheseExpire(t: Tables, op: Op, id: RowId)
    requires Reachable(t) && id < |t.payments| && !t.payments[id].status.Confirmed? && !t.payments[id].status.Expired?
    ensures id < |Apply(t, op).payments|
    ensures var p := t.payments[id];
            Apply(t, op).payments[id].status.Expired? <==>
              || (op.Deliver? && Names(op.delivery, p) && AsAsked(op.delivery, p)
                  && (op.delivery.parsed.value.status.TimedOut? || op.delivery.parsed.value.status.Unknown?))
              || (op.ReconcilePayments?
                  && (AgedOut(p, t.clock)
                      || (AskedAbout(p, t.clock, op.pollable) && Answered(op.answers, id, TimedOut))))
  {
    StepFollows(t, op);
    match op
    case Deliver(d) => DeliveryDecides(t, d, id);
    case ReviewPayment(reviewed, decision, reason) => AdminDecides(t, reviewed, decision, reason, id);
    case ReconcilePayments(pollable, answers) => ReconciliationDecides(t, pollable, answers, id);
    case _ =>
  }
}
