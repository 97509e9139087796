/**
 * Any number of dated payments of one user confirmed at once, statement by
 * statement, with lapses and promotions in between. ConfirmRace has one
 * transaction at a time on each payment, so a payment's transaction stands
 * for all that are tried on it.
 *
 * A statement sees what was committed when it ran, and an INSERT or UPDATE of
 * an active row waits for an uncommitted one of the same user, then fails on
 * the index if that was committed.
 */
module MintRaces {

  datatype Phase =
    | Idle
    | Checked                                   // no rows for the payment yet
    | Looked(chained: bool)                     // whether an active row was there
    | Minting(chained: bool, inserted: nat, holdsActive: bool)  // rows written, not committed

  datatype Order = Order(quantity: nat, rows: nat, phase: Phase)

  // The user's committed rows: whether one is active, and how many are queued or expired.
  datatype State = State(orders: seq<Order>, active: bool, queued: int, expired: int)

  datatype Statement = Check | LookForActive | LookForQueued | Insert | Commit | Rollback

  datatype Step = Step(i: nat, statement: Statement) | Lapse | Promote

  predicate Holds(phase: Phase) { phase.Minting? && phase.holdsActive }

  predicate SomeoneHolds(s: State) { exists i :: 0 <= i < |s.orders| && Holds(s.orders[i].phase) }

  function Moved(s: State, i: nat, phase: Phase): State
    requires i < |s.orders|
  {
    s.(orders := s.orders[i := s.orders[i].(phase := phase)])
  }

  function Next(s: State, step: Step): State {
    match step
    case Lapse => if s.active then s.(active := false, expired := s.expired + 1) else s
    case Promote =>
      if s.queued > 0 && !s.active && !SomeoneHolds(s) then s.(active := true, queued := s.queued - 1) else s
    case Step(i, statement) => if i < |s.orders| then NextOf(s, i, statement) else s
  }

  function NextOf(s: State, i: nat, statement: Statement): State
    requires i < |s.orders|
  {
    var Order(quantity, rows, phase) := s.orders[i];
    match statement
    case Check => if phase.Idle? && rows == 0 then Moved(s, i, Checked) else s
    case LookForActive => if phase.Checked? then Moved(s, i, Looked(s.active)) else s
    case LookForQueued => if phase.Looked? then Moved(s, i, Minting(phase.chained || s.queued > 0, 0, false)) else s
    case Insert =>
      if !phase.Minting? || phase.inserted >= quantity then s
      else if phase.chained || phase.inserted > 0 then Moved(s, i, phase.(inserted := phase.inserted + 1))
      else if SomeoneHolds(s) then s
      else if s.active then Moved(s, i, Idle)
      else Moved(s, i, phase.(inserted := 1, holdsActive := true))
    case Commit =>
      if !phase.Minting? || phase.inserted != quantity then s
      else
        Moved(s, i, Idle).(orders := s.orders[i := Order(quantity, quantity, Idle)],
                           active := s.active || phase.holdsActive,
                           queued := s.queued + quantity - if phase.holdsActive then 1 else 0)
    case Rollback => if phase.Idle? then s else Moved(s, i, Idle)
  }

  function Run(s: State, steps: seq<Step>): State {
    if steps == [] then s else Next(Run(s, steps[..|steps| - 1]), steps[|steps| - 1])
  }

  function TotalRows(orders: seq<Order>): nat {
    if orders == [] then 0 else TotalRows(orders[..|orders| - 1]) + orders[|orders| - 1].rows
  }

  /** Nothing minted, nobody minting. */
  ghost predicate Init(s: State) {
    && !s.active && s.queued == 0 && s.expired == 0
    && forall i | 0 <= i < |s.orders| :: s.orders[i].quantity > 0 && s.orders[i].rows == 0 && s.orders[i].phase.Idle?
  }

  ghost predicate OrderOk(o: Order) {
    && o.quantity > 0 && (o.rows == 0 || o.rows == o.quantity)
    && (!o.phase.Idle? ==> o.rows == 0)
    && (o.phase.Minting? ==>
        o.phase.inserted <= o.quantity && (o.phase.holdsActive <==> !o.phase.chained && o.phase.inserted > 0))
  }

  ghost predicate OrdersOk(s: State) { forall i | 0 <= i < |s.orders| :: OrderOk(s.orders[i]) }

  /** An active row is committed or held uncommitted, and not both, and not by two. */
  ghost predicate OneActive(s: State) {
    && (s.active ==> !SomeoneHolds(s))
    && (forall i, j | 0 <= i < j < |s.orders| :: !(Holds(s.orders[i].phase) && Holds(s.orders[j].phase)))
  }

  ghost predicate RowsAddUp(s: State) { TotalRows(s.orders) == s.queued + s.expired + if s.active then 1 else 0 }

  ghost predicate Inv(s: State) { OrdersOk(s) && OneActive(s) && RowsAddUp(s) }

  lemma {:induction false} TotalRowsUpdate(orders: seq<Order>, i: nat, o: Order)
    requires i < |orders|
    ensures TotalRows(orders[i := o]) + orders[i].rows == TotalRows(orders) + o.rows
    decreases |orders|
  {
    var n := |orders| - 1;
    if i < n {
      assert orders[i := o][..n] == orders[..n][i := o];
      TotalRowsUpdate(orders[..n], i, o);
    } else {
      assert orders[i := o][..n] == orders[..n];
    }
  }

  lemma {:induction false} NoRows(orders: seq<Order>)
    requires forall i | 0 <= i < |orders| :: orders[i].rows == 0
    ensures TotalRows(orders) == 0
    decreases |orders|
  {
    if orders != [] {
      NoRows(orders[..|orders| - 1]);
    }
  }

  lemma StepKeepsOrders(s: State, step: Step)
    requires OrdersOk(s)
    ensures OrdersOk(Next(s, step))
  {
  }

  lemma StepKeepsActive(s: State, step: Step)
    requires OrdersOk(s) && OneActive(s)
    ensures OneActive(Next(s, step))
  {
    var s' := Next(s, step);
    if step.Step? && step.i < |s.orders| {
      assert forall j | 0 <= j < |s.orders| && j != step.i :: s'.orders[j] == s.orders[j];
    }
  }

  lemma StepKeepsRows(s: State, step: Step)
    requires OrdersOk(s) && OneActive(s) && RowsAddUp(s)
    ensures RowsAddUp(Next(s, step))
  {
    if step.Step? && step.i < |s.orders| {
      var o := RowsOfStep(s, step.i, step.statement);
      TotalRowsUpdate(s.orders, step.i, o);
    }
  }

  /** One payment's statement changes no other payment, and counts what it commits. */
  lemma RowsOfStep(s: State, i: nat, statement: Statement) returns (o: Order)
    requires i < |s.orders| && OrderOk(s.orders[i]) && (s.active ==> !SomeoneHolds(s))
    ensures var s' := NextOf(s, i, statement);
            && s'.orders == s.orders[i := o] && s'.expired == s.expired
            && o.rows - s.orders[i].rows
               == s'.queued + (if s'.active then 1 else 0) - s.queued - if s.active then 1 else 0
  {
    o := NextOf(s, i, statement).orders[i];
    assert NextOf(s, i, statement).orders == s.orders[i := o];
  }

  lemma {:induction false} RunKeeps(s: State, steps: seq<Step>)
    requires Init(s)
    ensures Inv(Run(s, steps))
    decreases |steps|
  {
    if steps == [] {
      NoRows(s.orders);
    } else {
      var mid := Run(s, steps[..|steps| - 1]);
      RunKeeps(s, steps[..|steps| - 1]);
      StepKeepsOrders(mid, steps[|steps| - 1]);
      StepKeepsActive(mid, steps[|steps| - 1]);
      StepKeepsRows(mid, steps[|steps| - 1]);
    }
  }

  /**
   * Whatever the interleaving, each payment's committed rows are none or its
   * quantity, and all of them together are the one active row at most, the
   * queued and the expired.
   */
  lemma EachMintedOnce(s: State, steps: seq<Step>, i: nat)
    requires Init(s) && i < |Run(s, steps).orders|
    ensures var r := Run(s, steps);
            && (r.orders[i].rows == 0 || r.orders[i].rows == r.orders[i].quantity)
            && TotalRows(r.orders) == r.queued + r.expired + if r.active then 1 else 0
  {
    RunKeeps(s, steps);
  }

  /**
   * At most one transaction has an active row to commit, and none while one is committed: the index
   * is never broken.
   */
  lemma IndexHolds(s: State, steps: seq<Step>, i: nat, j: nat)
    requires Init(s) && i < |Run(s, steps).orders| && j < |Run(s, steps).orders|
    requires Holds(Run(s, steps).orders[i].phase) && Holds(Run(s, steps).orders[j].phase)
    ensures i == j && !Run(s, steps).active
  {
    RunKeeps(s, steps);
  }

  /** The loser of two first purchases is rolled back whole, and queues when it is tried again. */
  lemma LoserQueues(s: State)
    requires s == State([Order(1, 0, Idle), Order(1, 0, Idle)], false, 0, 0)
    ensures var raced := Both(Both(Both(s, Check), LookForActive), LookForQueued);
            var won := Next(Next(raced, Step(0, Insert)), Step(0, Commit));
            var lost := Next(won, Step(1, Insert));
            && Init(s) && won.active && lost.orders[1] == Order(1, 0, Idle)
            && Alone(lost, 1) == State([Order(1, 1, Idle), Order(1, 1, Idle)], true, 1, 0)
  {
    var raced := Both(Both(Both(s, Check), LookForActive), LookForQueued);
    assert raced.orders == [Order(1, 0, Minting(false, 0, false)), Order(1, 0, Minting(false, 0, false))];
    var inserted := Next(raced, Step(0, Insert));
    assert inserted.orders == [Order(1, 0, Minting(false, 1, true)), Order(1, 0, Minting(false, 0, false))];
    var won := Next(inserted, Step(0, Commit));
    assert won.orders == [Order(1, 1, Idle), Order(1, 0, Minting(false, 0, false))];
    var lost := Next(won, Step(1, Insert));
    assert lost == State([Order(1, 1, Idle), Order(1, 0, Idle)], true, 0, 0);
  }

  /** The first two payments take a step each. */
  function Both(s: State, statement: Statement): State { Next(Next(s, Step(0, statement)), Step(1, statement)) }

  /** One payment of a single period goes all the way by itself. */
  function Alone(s: State, i: nat): State {
    var looked := Next(Next(Next(s, Step(i, Check)), Step(i, LookForActive)), Step(i, LookForQueued));
    Next(Next(looked, Step(i, Insert)), Step(i, Commit))
  }
}
