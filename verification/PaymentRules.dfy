/** What the payment operations do to the tables. */
module PaymentRules {
  import opened Wrappers
  import opened Vat
  import opened Database
  import opened SubscriptionRules

  const MANUAL_INTENT_ABANDON_DAYS: int := 30

  datatype PaymentError =
    NoSuchPayment | PlanUnavailable | QuantityRefused | ProviderFailed | DuplicateReference
    | NothingToUpdate | AlreadyDecided(status: PaymentStatus) | ReasonRequired | MintRefused(error: Error)

  // ---- Intents ----

  datatype Purchase = Purchase(
    user: UserId,
    plan: PlanCode,
    quantity: nat,
    provider: string,
    transferService: Option<string>,
    referenceCode: Option<string>)

  // What the provider answers: its reference and an optional expiry, or a refusal.
  datatype Intent = Intent(providerRef: string, expiresAt: Option<int>)

  function Priced(t: Tables, o: Purchase, rate: RateSetting): Payment
    requires o.plan in t.plans
  {
    var b := Quote(t.plans[o.plan].priceUsd, o.quantity, ResolveVatRate(rate));
    Payment(o.user, Some(o.plan), o.quantity, b.subtotalUsd, b.vatRate, b.vatUsd, b.totalUsd, "USD", o.provider, None,
            Pending, o.transferService, o.referenceCode, None, None, t.clock)
  }

  /** The payment a webhook from this provider is about. */
  function FindPayment(payments: seq<Payment>, provider: string, providerRef: string): (r: Option<RowId>)
    ensures r.Some? ==>
              && r.value < |payments| && payments[r.value].provider == provider
              && payments[r.value].providerRef == Some(providerRef)
    ensures r.None? ==> forall i | 0 <= i < |payments| ::
                          !(payments[i].provider == provider && payments[i].providerRef == Some(providerRef))
  {
    if payments == [] then None
    else
      var r := FindPayment(payments[..|payments| - 1], provider, providerRef);
      var last := payments[|payments| - 1];
      if r.Some? then r
      else if last.provider == provider && last.providerRef == Some(providerRef) then Some(|payments| - 1)
      else None
  }

  /** The row is saved before the provider is asked, and stays when the provider fails. */
  function CreateIntent(t: Tables, o: Purchase, rate: RateSetting, intent: Option<Intent>)
    : (Tables, Result<RowId, PaymentError>)
  {
    if o.plan !in t.plans || !t.plans[o.plan].onSale then (t, Err(PlanUnavailable))
    else if o.quantity == 0 then (t, Err(QuantityRefused))
    else
      var p := Priced(t, o, rate);
      var saved := t.(payments := t.payments + [p]);
      if intent.None? then (saved, Err(ProviderFailed))
      else if FindPayment(t.payments, o.provider, intent.value.providerRef).Some? then (saved, Err(DuplicateReference))
      else
        (t.(payments := t.payments + [p.(providerRef := Some(intent.value.providerRef), status := AwaitingProvider,
                                         intentExpiresAt := intent.value.expiresAt)]),
         Ok(|t.payments|))
  }

  predicate Undecided(p: Payment) { p.status.Pending? || p.status.AwaitingProvider? }

  function Report(t: Tables, user: UserId, id: RowId, service: string, reference: string)
    : (Tables, Result<PaymentStatus, PaymentError>)
  {
    if id < |t.payments| && t.payments[id].planner == user && Undecided(t.payments[id]) then
      var p := t.payments[id].(transferService := Some(service), referenceCode := Some(reference));
      (t.(payments := t.payments[id := p]), Ok(p.status))
    else (t, Err(NothingToUpdate))
  }

  // ---- Decisions ----

  /** The transaction both confirming callers run: the payment row, then its subscriptions, or neither. */
  function Confirm(t: Tables, id: RowId, p: Payment): Result<(Tables, nat), Error>
    requires id < |t.payments|
  {
    var paid := t.(payments := t.payments[id := p]);
    match Mint(paid, id)
    case Err(e) => Err(e)
    case Ok(m) => Ok((paid.(subs := paid.subs + m.rows), |m.rows|))
  }

  datatype Decision = Confirming | Rejecting

  function Review(t: Tables, id: RowId, decision: Decision, reason: Option<string>): (Tables,
      Result<nat, PaymentError>) {
    if id >= |t.payments| then (t, Err(NoSuchPayment))
    else if !Undecided(t.payments[id]) then (t, Err(AlreadyDecided(t.payments[id].status)))
    else if decision.Rejecting? && (reason.None? || reason.value == "") then (t, Err(ReasonRequired))
    else
      var p := t.payments[id].(rejectionReason := reason);
      if decision.Rejecting? then (t.(payments := t.payments[id := p.(status := Rejected)]), Ok(0))
      else
        match Confirm(t, id, p.(status := Confirmed))
        case Err(e) => (t, Err(MintRefused(e)))
        case Ok((t', minted)) => (t', Ok(minted))
  }

  // ---- Webhooks ----

  datatype ReportedStatus = Paid | Failed | TimedOut | Unknown

  // amount is None when it is not a finite number.
  datatype ParsedWebhook = ParsedWebhook(
    providerRef: string, status: ReportedStatus, amount: Option<real>, currency: string)

  // One request: signatureOk is the provider's own verdict, parsed is None when parsing throws.
  datatype Delivery = Delivery(provider: string, signatureOk: bool, parsed: Option<ParsedWebhook>)

  // Only the mock provider verifies signatures; manual, whish and omt refuse every one.
  const PROVIDERS: set<string> := {"manual", "mock", "whish", "omt"}

  function Upper(s: string): string {
    seq(|s|, i requires 0 <= i < |s| => if 'a' <= s[i] <= 'z' then (s[i] as int - 32) as char else s[i])
  }

  /** The amount and currency are the ones asked for. */
  predicate ChargedAsAsked(p: Payment, w: ParsedWebhook) {
    w.amount.Some? && AmountMatches(p.amountUsd, w.amount.value) && Upper(w.currency) == Upper(p.currency)
  }

  /** Replays first, then the amount and currency, then what the provider says happened. */
  function SettleOutcome(p: Payment, w: ParsedWebhook): WebhookOutcome {
    if p.status.Confirmed? then AlreadyConfirmed
    else if !ChargedAsAsked(p, w) then AmountMismatch
    else if !w.status.Paid? then NotPaid
    else WebhookConfirmed
  }

  /** The outcome and the payment it is about, read off the tables before anything is changed. */
  function Verdict(t: Tables, d: Delivery): (WebhookOutcome, Option<RowId>) {
    if d.provider !in PROVIDERS then (RecordedUnknownProvider, None)
    else if d.provider != "mock" || !d.signatureOk then (BadSignature, None)
    else if d.parsed.None? then (Unparseable, None)
    else
      var id := FindPayment(t.payments, d.provider, d.parsed.value.providerRef);
      if id.None? then (PaymentNotFound, None)
      else (SettleOutcome(t.payments[id.value], d.parsed.value), id)
  }

  /** The record of the event is closed with the outcome, unless the confirmation was rolled back. */
  function Settle(t: Tables, event: RowId, id: RowId, w: ParsedWebhook): (Tables, Result<WebhookOutcome, Error>)
    requires event < |t.events| && id < |t.payments|
  {
    var p := t.payments[id];
    var outcome := SettleOutcome(p, w);
    var done := t.(events := t.events[event := t.events[event].(processed := Some(outcome))]);
    match outcome
    case AmountMismatch => (done.(payments := t.payments[id := p.(status := Disputed)]), Ok(outcome))
    case NotPaid =>
      var status := if w.status.Failed? then Rejected else PaymentStatus.Expired;
      (done.(payments := t.payments[id := p.(status := status)]), Ok(outcome))
    case WebhookConfirmed =>
      (match Confirm(done, id, p.(status := Confirmed))
       case Err(e) => (t, Err(e))
       case Ok((t', _)) => (t', Ok(outcome)))
    case _ => (done, Ok(outcome))
  }

  /** Every delivery is recorded, whatever becomes of it. */
  function Process(t: Tables, d: Delivery): (Tables, Result<WebhookOutcome, Error>) {
    var (outcome, id) := Verdict(t, d);
    var signed := !outcome.RecordedUnknownProvider? && !outcome.BadSignature?;
    var ref := if signed && d.parsed.Some? then Some(d.parsed.value.providerRef) else None;
    if id.None? then
      (t.(events := t.events + [WebhookEvent(d.provider, signed, ref, None, Some(outcome))]), Ok(outcome))
    else
      Settle(t.(events := t.events + [WebhookEvent(d.provider, true, ref, id, None)]), |t.events|, id.value,
          d.parsed.value)
  }

  // ---- Reconciliation ----

  /** A hosted checkout past its expiry, or a manual intent nobody reported a transfer for in thirty days. */
  predicate Stale(p: Payment, clock: int) {
    p.status.AwaitingProvider? &&
    if p.provider == "manual" then p.referenceCode.None? && p.createdAt < clock - MANUAL_INTENT_ABANDON_DAYS * DAY_MS
    else p.intentExpiresAt.Some? && p.intentExpiresAt.value < clock
  }

  predicate Polled(p: Payment, clock: int, pollable: seq<string>) {
    && p.status.AwaitingProvider? && p.provider in pollable && p.provider != "manual"
    && p.providerRef.Some? && p.createdAt < clock - 30 * MINUTE_MS
  }

  /** A poll never confirms: it carries no amount to check. */
  function Reconciled(p: Payment, clock: int, pollable: seq<string>, answer: ReportedStatus): Payment {
    if Stale(p, clock) then p.(status := PaymentStatus.Expired)
    else if Polled(p, clock, pollable) && answer.Failed? then p.(status := Rejected)
    else if Polled(p, clock, pollable) && answer.TimedOut? then p.(status := PaymentStatus.Expired)
    else p
  }

  /** What the provider says about payment id; a poll that fails counts as Unknown. */
  function AnswerFor(answers: map<RowId, ReportedStatus>, id: RowId): ReportedStatus {
    if id in answers then answers[id] else Unknown
  }

  function Reconcile(t: Tables, pollable: seq<string>, answers: map<RowId, ReportedStatus>): Tables {
    t.(payments := seq(|t.payments|, i requires 0 <= i < |t.payments| =>
      Reconciled(t.payments[i], t.clock, pollable, AnswerFor(answers, i))))
  }
}
