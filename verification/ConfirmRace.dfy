/**
 * Any number of decisions on one payment at once, statement by statement:
 * confirmations, and every other write of its status.
 *
 * A statement sees what was committed when it ran, and an UPDATE keeps the
 * payment row locked until its transaction ends.
 */
module ConfirmRace {
  import opened Wrappers
  import opened Database

  type Refusal = s: PaymentStatus | s.Rejected? || s.Expired? || s.Disputed? witness Rejected

  datatype Caller =
    | Webhook                    // reports the payment paid, and confirms
    | Admin                      // confirms
    | BadWebhook(status: Refusal) // a wrong amount, or not paid
    | Rejection                  // an admin again
    | Poll(status: Refusal)      // the reconciliation job, told that the payment failed or timed out
    | Purchase                   // the buyer's own request, whose read is the row it saved as pending

  datatype Phase =
    | Waiting                    // nothing read yet
    | Admitted                   // the status it read lets it go on
    | Refused                    // the status it read does not
    | Updated                    // in its transaction, the payment row updated and locked
    | Skipping                   // rows for the payment were there already, or it has no plan
    | Minting(inserted: nat)     // rows inserted so far, not committed
    | Done                       // committed
    | RolledBack
    | Written                    // the status written by id alone, and committed at once

  datatype Process = Process(caller: Caller, phase: Phase)

  // status and rows are the committed ones; plan and quantity never change.
  datatype State = State(
    plan: Option<PlanCode>,
    quantity: nat,
    status: PaymentStatus,
    rows: nat,
    lockedBy: Option<nat>,
    processes: seq<Process>)

  datatype Step =
    | Read(p: nat)
    | Update(p: nat)
    | Check(p: nat)
    | Insert(p: nat)
    | Commit(p: nat)
    | Rollback(p: nat)
    | Write(p: nat)
    | Age                        // the reconciliation job's own UPDATE, which repeats the status it expects

  predicate Confirms(caller: Caller) { caller.Webhook? || caller.Admin? }

  /** The status each caller acts on. */
  predicate LetsThrough(caller: Caller, status: PaymentStatus) {
    match caller
    case Webhook | BadWebhook(_) => !status.Confirmed?
    case Admin | Rejection => status.Pending? || status.AwaitingProvider?
    case Poll(_) => status.AwaitingProvider?
    case Purchase => status.Pending?
  }

  /** The status a caller that does not confirm writes. */
  function Decided(caller: Caller): (r: PaymentStatus)
    requires !Confirms(caller)
    ensures !r.Confirmed?
  {
    match caller
    case BadWebhook(status) => status
    case Rejection => Rejected
    case Poll(status) => status
    case Purchase => AwaitingProvider
  }

  function Moved(s: State, p: nat, phase: Phase): State
    requires p < |s.processes|
  {
    s.(processes := s.processes[p := s.processes[p].(phase := phase)])
  }

  /** One statement; a statement that cannot run, or waits for the lock, changes nothing. */
  function Next(s: State, step: Step): State {
    match step
    case Age => if s.lockedBy.None? && s.status.AwaitingProvider? then s.(status := PaymentStatus.Expired) else s
    case _ => if step.p < |s.processes| then NextOf(s, step, s.processes[step.p]) else s
  }

  function NextOf(s: State, step: Step, me: Process): State
    requires !step.Age? && step.p < |s.processes|
  {
    match step
    case Read(p) =>
      if !me.phase.Waiting? then s
      else Moved(s, p, if LetsThrough(me.caller, s.status) then Admitted else Refused)
    case Update(p) =>
      if me.phase.Admitted? && Confirms(me.caller) && s.lockedBy.None?
          then Moved(s, p, Updated).(lockedBy := Some(p)) else s
    case Check(p) =>
      if !me.phase.Updated? then s
      else Moved(s, p, if s.plan.None? || s.rows > 0 then Skipping else Minting(0))
    case Insert(p) =>
      // Day passes go in with one statement, dated plans one by one.
      if !(me.phase.Minting? && me.phase.inserted < s.quantity) then s
      else Moved(s, p, Minting(if s.plan == Some(Day) then s.quantity else me.phase.inserted + 1))
    case Commit(p) =>
      if me.phase.Skipping? then Moved(s, p, Done).(status := Confirmed, lockedBy := None)
      else if me.phase == Minting(s.quantity) then
        Moved(s, p, Done).(status := Confirmed, rows := s.rows + s.quantity, lockedBy := None)
      else s
    case Rollback(p) =>
      if InTransaction(me.phase) then Moved(s, p, RolledBack).(lockedBy := None) else s
    case Write(p) =>
      if me.phase.Admitted? && !Confirms(me.caller) && s.lockedBy.None?
          then Moved(s, p, Written).(status := Decided(me.caller)) else s
  }

  predicate InTransaction(phase: Phase) { phase.Updated? || phase.Skipping? || phase.Minting? }

  function Run(s: State, steps: seq<Step>): State {
    if steps == [] then s else Next(Run(s, steps[..|steps| - 1]), steps[|steps| - 1])
  }

  /** Nothing minted, nothing locked, everybody about to start. */
  ghost predicate Init(s: State) {
    && s.quantity > 0 && s.rows == 0 && s.lockedBy.None? && !s.status.Confirmed?
    && forall p | 0 <= p < |s.processes| :: s.processes[p].phase.Waiting?
  }

  ghost predicate SomeoneDone(s: State) {
    exists p :: 0 <= p < |s.processes| && s.processes[p].phase.Done?
  }

  ghost predicate LockHeld(s: State) {
    && (s.lockedBy.Some? ==> s.lockedBy.value < |s.processes|)
    && forall p | 0 <= p < |s.processes| :: InTransaction(s.processes[p].phase) <==> s.lockedBy == Some(p)
  }

  /** Whoever mints found nothing minted; whoever skips had a reason to. */
  ghost predicate ChecksHold(s: State) {
    && (forall p | 0 <= p < |s.processes| :: s.processes[p].phase.Minting? ==> s.plan.Some? && s.rows == 0)
    && (forall p | 0 <= p < |s.processes| :: s.processes[p].phase.Skipping? ==> s.plan.None? || s.rows > 0)
  }

  ghost predicate RowsMatch(s: State) {
    s.rows == (if s.plan.Some? && SomeoneDone(s) then s.quantity else 0)
  }

  ghost predicate Inv(s: State) { s.quantity > 0 && LockHeld(s) && ChecksHold(s) && RowsMatch(s) }

  lemma StepKeepsLock(s: State, step: Step)
    requires LockHeld(s)
    ensures LockHeld(Next(s, step))
  {
  }

  lemma StepKeepsChecks(s: State, step: Step)
    requires LockHeld(s) && ChecksHold(s)
    ensures ChecksHold(Next(s, step))
  {
  }

  lemma StepKeepsRows(s: State, step: Step)
    requires Inv(s)
    ensures RowsMatch(Next(s, step))
  {
    var s' := Next(s, step);
    if !step.Age? && step.p < |s.processes| {
      assert forall q | 0 <= q < |s.processes| && q != step.p :: s'.processes[q] == s.processes[q];
      if s'.processes[step.p].phase.Done? {
        assert SomeoneDone(s');
      } else if SomeoneDone(s) {
        var q :| 0 <= q < |s.processes| && s.processes[q].phase.Done?;
        assert s'.processes[q].phase.Done?;
      }
    } else {
      assert SomeoneDone(s') <==> SomeoneDone(s);
    }
  }

  lemma StepKeeps(s: State, step: Step)
    requires Inv(s)
    ensures Inv(Next(s, step))
  {
    StepKeepsLock(s, step);
    StepKeepsChecks(s, step);
    StepKeepsRows(s, step);
    assert Next(s, step).quantity == s.quantity;
  }

  lemma {:induction false} RunKeeps(s: State, steps: seq<Step>)
    requires Init(s)
    ensures Inv(Run(s, steps))
    ensures Run(s, steps).quantity == s.quantity && Run(s, steps).plan == s.plan
    decreases |steps|
  {
    if steps != [] {
      RunKeeps(s, steps[..|steps| - 1]);
      StepKeeps(Run(s, steps[..|steps| - 1]), steps[|steps| - 1]);
    }
  }

  /**
   * Whatever the interleaving, the committed rows of the payment are none, or
   * exactly what was bought, and they are there once the first confirmation
   * has committed.
   */
  lemma MintedExactlyOnce(s: State, steps: seq<Step>)
    requires Init(s)
    ensures Run(s, steps).rows == if s.plan.Some? && SomeoneDone(Run(s, steps)) then s.quantity else 0
  {
    RunKeeps(s, steps);
  }

  /** At most one confirmation is inside its transaction, so no two ever insert side by side. */
  lemma OneAtATime(s: State, steps: seq<Step>, p: nat, q: nat)
    requires Init(s) && p < |Run(s, steps).processes| && q < |Run(s, steps).processes|
    requires InTransaction(Run(s, steps).processes[p].phase) && InTransaction(Run(s, steps).processes[q].phase)
    ensures p == q
  {
    RunKeeps(s, steps);
  }

  // ---- Does a confirmed status last? ----

  /** A process between its read and its write, with a status other than confirmed to write. */
  predicate Standing(p: Process) { p.phase.Admitted? && !Confirms(p.caller) }

  ghost predicate NobodyStands(s: State) {
    forall p | 0 <= p < |s.processes| :: !Standing(s.processes[p])
  }

  /** A confirmed status lets no further decision in, and only one already let in can change it. */
  lemma {:induction false} NobodyStandsLater(s: State, steps: seq<Step>)
    requires s.status.Confirmed? && NobodyStands(s)
    ensures Run(s, steps).status.Confirmed? && NobodyStands(Run(s, steps))
    decreases |steps|
  {
    if steps != [] {
      NobodyStandsLater(s, steps[..|steps| - 1]);
    }
  }

  lemma StandingWrites(s: State, p: nat) returns (steps: seq<Step>)
    requires LockHeld(s) && p < |s.processes| && Standing(s.processes[p])
    ensures !Run(s, steps).status.Confirmed?
  {
    if s.lockedBy.None? {
      steps := [Write(p)];
      assert steps[..0] == [];
      assert Run(s, steps) == Next(s, Write(p));
    } else {
      var q := s.lockedBy.value;
      steps := [Rollback(q), Write(p)];
      assert [Rollback(q)][..0] == [] && steps[..1] == [Rollback(q)];
      assert Run(s, [Rollback(q)]) == Next(s, Rollback(q));
    }
  }

  /**
   * A confirmed status survives every continuation exactly when nobody stands
   * between a read made before it and a write of another status.
   */
  lemma ConfirmedSurvives(s: State)
    requires Inv(s) && s.status.Confirmed?
    ensures (forall steps: seq<Step> :: Run(s, steps).status.Confirmed?) <==> NobodyStands(s)
  {
    if NobodyStands(s) {
      forall steps: seq<Step>
        ensures Run(s, steps).status.Confirmed?
      {
        NobodyStandsLater(s, steps);
      }
    } else {
      var p :| 0 <= p < |s.processes| && Standing(s.processes[p]);
      var steps := StandingWrites(s, p);
    }
  }

  /** An admin's rejection read before a webhook's confirmation commits is written after it; the minted rows stay. */
  lemma StaleRejectionOverwrites(s: State) returns (steps: seq<Step>)
    requires Init(s) && s.status.AwaitingProvider? && s.plan == Some(Day)
    requires s.processes == [Process(Webhook, Waiting), Process(Rejection, Waiting)]
    ensures var confirmed, overwritten := Run(s, steps), Run(s, steps + [Write(1)]);
            && confirmed.status.Confirmed?
                && confirmed.processes == [Process(Webhook, Done), Process(Rejection, Admitted)]
            && overwritten.status.Rejected? && overwritten.rows == confirmed.rows == s.quantity
  {
    var read, minted := [Read(1), Read(0)], [Update(0), Check(0), Insert(0), Commit(0)];
    BothRead(s);
    DayIsMinted(Run(s, read));
    Append(s, read, minted);
    steps := read + minted;
    Append(s, steps, [Write(1)]);
    OneStep(Run(s, steps), Write(1));
  }

  lemma BothRead(s: State)
    requires s.status.AwaitingProvider? && s.processes == [Process(Webhook, Waiting), Process(Rejection, Waiting)]
    ensures Run(s, [Read(1), Read(0)])
            == s.(processes := [Process(Webhook, Admitted), Process(Rejection, Admitted)])
  {
    OneStep(s, Read(1));
    OneStep(Run(s, [Read(1)]), Read(0));
    Append(s, [Read(1)], [Read(0)]);
  }

  lemma DayIsMinted(s: State)
    requires s.processes == [Process(Webhook, Admitted), Process(Rejection, Admitted)]
    requires s.lockedBy.None? && s.plan == Some(Day) && s.rows == 0 && s.quantity > 0
    ensures Run(s, [Update(0), Check(0), Insert(0), Commit(0)])
            == s.(processes := [Process(Webhook, Done), Process(Rejection, Admitted)], status := Confirmed,
                rows := s.quantity)
  {
    var checked := Next(Next(s, Update(0)), Check(0));
    assert checked == s.(processes := [Process(Webhook, Minting(0)), Process(Rejection, Admitted)],
        lockedBy := Some(0));
    TwoSteps(s, Update(0), Check(0));
    TwoSteps(checked, Insert(0), Commit(0));
    Append(s, [Update(0), Check(0)], [Insert(0), Commit(0)]);
    assert [Update(0), Check(0)] + [Insert(0), Commit(0)] == [Update(0), Check(0), Insert(0), Commit(0)];
  }

  lemma OneStep(s: State, step: Step)
    ensures Run(s, [step]) == Next(s, step)
  {
    assert [step][..0] == [];
  }

  lemma TwoSteps(s: State, a: Step, b: Step)
    ensures Run(s, [a, b]) == Next(Next(s, a), b)
  {
    OneStep(s, a);
    assert [a, b][..1] == [a];
  }

  lemma {:induction false} Append(s: State, steps: seq<Step>, more: seq<Step>)
    ensures Run(s, steps + more) == Run(Run(s, steps), more)
    decreases |more|
  {
    if more == [] {
      assert steps + more == steps;
    } else {
      Append(s, steps, more[..|more| - 1]);
      assert (steps + more)[..|steps + more| - 1] == steps + more[..|more| - 1];
    }
  }
}
