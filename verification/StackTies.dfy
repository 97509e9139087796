/**
 * One user's stacked periods when rows saved together cannot be told apart.
 *
 * All rows of a payment carry the time its transaction began, so the sweep's
 * order by created_at leaves open which of them it takes. Payments themselves
 * are in order.
 */
module StackTies {
  import opened Wrappers

  // The rows of one payment: their projected starts, which of them still wait, and when the others started.
  datatype Batch = Batch(ms: nat, projected: seq<int>, queued: set<nat>, starts: seq<int>)

  // end is the active row's expiry, which may be past until a sweep comes by.
  datatype State = State(clock: int, end: Option<int>, batches: seq<Batch>)

  datatype Step =
    | Tick(ms: nat)
    | Buy(ms: nat, quantity: nat)
    | ActivatePass(ms: nat)
    | Expire
    | Promote(row: nat)           // the row taken among those of the oldest waiting payment

  function QueuedMs(batches: seq<Batch>): nat {
    if batches == [] then 0
    else var b := batches[|batches| - 1]; QueuedMs(batches[..|batches| - 1]) + |b.queued| * b.ms
  }

  predicate HasQueue(batches: seq<Batch>) { exists i :: 0 <= i < |batches| && batches[i].queued != {} }

  function ChainStart(s: State): int { if s.end.Some? then s.end.value else s.clock }

  function Projected(start: int, ms: nat, quantity: nat): seq<int>
  {
    seq(quantity, k requires 0 <= k => start + k * ms)
  }

  function Rows(first: nat, quantity: nat): (rows: set<nat>)
    ensures forall k | k in rows :: first <= k
    ensures |rows| == if first <= quantity then quantity - first else 0
    decreases if first < quantity then quantity - first else 0
  {
    if first < quantity then Rows(first + 1, quantity) + {first} else {}
  }

  /** The oldest payment with something waiting. */
  function Oldest(batches: seq<Batch>): (r: Option<nat>)
    ensures r.Some? ==>
              && r.value < |batches| && batches[r.value].queued != {}
              && forall i | 0 <= i < r.value :: batches[i].queued == {}
    ensures r.Some? <==> HasQueue(batches)
  {
    if batches == [] then None
    else
      var r := Oldest(batches[..|batches| - 1]);
      if r.Some? then r else if batches[|batches| - 1].queued != {} then Some(|batches| - 1) else None
  }

  function Next(s: State, step: Step): State {
    match step
    case Tick(ms) => s.(clock := s.clock + ms)
    case Buy(ms, quantity) =>
      if quantity == 0 then s
      else if s.end.None? && !HasQueue(s.batches) then
        s.(end := Some(s.clock + ms),
           batches := s.batches + [Batch(ms, Projected(s.clock, ms, quantity), Rows(1, quantity), [s.clock])])
      else
        var start := ChainStart(s) + QueuedMs(s.batches);
        s.(batches := s.batches + [Batch(ms, Projected(start, ms, quantity), Rows(0, quantity), [])])
    case ActivatePass(ms) => if s.end.None? then s.(end := Some(s.clock + ms)) else s
    case Expire => if s.end.Some? && s.end.value <= s.clock then s.(end := None) else s
    case Promote(row) =>
      var i := Oldest(s.batches);
      if s.end.Some? || i.None? || row !in s.batches[i.value].queued then s
      else
        var b := s.batches[i.value];
        s.(end := Some(s.clock + b.ms),
           batches := s.batches[i.value := b.(queued := b.queued - {row}, starts := b.starts + [s.clock])])
  }

  function Run(s: State, steps: seq<Step>): State {
    if steps == [] then s else Next(Run(s, steps[..|steps| - 1]), steps[|steps| - 1])
  }

  ghost predicate Init(s: State) { s.end.None? && s.batches == [] }

  ghost predicate BatchOk(b: Batch) {
    && |b.starts| + |b.queued| == |b.projected|
    && (forall k | 0 <= k < |b.starts| :: b.projected[k] <= b.starts[k])
    && (forall k | 0 < k < |b.projected| :: b.projected[k] == b.projected[k - 1] + b.ms)
  }

  /** The next row of payment i to start is projected no later than what is ahead of it can take. */
  ghost predicate InTime(s: State, i: nat)
    requires i < |s.batches| && BatchOk(s.batches[i])
  {
    var b := s.batches[i];
    b.queued != {} ==> b.projected[|b.starts|] <= ChainStart(s) + QueuedMs(s.batches[..i])
  }

  ghost predicate Inv(s: State) {
    forall i | 0 <= i < |s.batches| :: BatchOk(s.batches[i]) && InTime(s, i)
  }

  lemma ProjectedInSteps(start: int, ms: nat, quantity: nat)
    ensures forall k | 0 < k < quantity ::
        Projected(start, ms, quantity)[k] == Projected(start, ms, quantity)[k - 1] + ms
  {
    forall k | 0 < k < quantity
      ensures start + k * ms == start + (k - 1) * ms + ms
    {
    }
  }

  lemma {:induction false} NothingQueued(batches: seq<Batch>)
    requires forall i | 0 <= i < |batches| :: batches[i].queued == {}
    ensures QueuedMs(batches) == 0
    decreases |batches|
  {
    if batches != [] {
      NothingQueued(batches[..|batches| - 1]);
    }
  }

  /** One row fewer waits in payment i, so whatever comes after waits its length less. */
  lemma {:induction false} QueuedMsLess(batches: seq<Batch>, i: nat, b: Batch)
    requires i < |batches| && b.ms == batches[i].ms && |b.queued| + 1 == |batches[i].queued|
    ensures QueuedMs(batches[i := b]) + b.ms == QueuedMs(batches)
    decreases |batches|
  {
    var n := |batches| - 1;
    if i < n {
      assert batches[i := b][..n] == batches[..n][i := b];
      QueuedMsLess(batches[..n], i, b);
    } else {
      assert batches[i := b][..n] == batches[..n];
      assert (|b.queued| + 1) * b.ms == |b.queued| * b.ms + b.ms;
    }
  }

  /** A payment put behind the others, and the chain ahead of them no shorter. */
  lemma AppendKeeps(s: State, s': State, b: Batch)
    requires Inv(s) && s'.batches == s.batches + [b] && ChainStart(s) <= ChainStart(s')
    requires BatchOk(b) && (b.queued != {} ==> b.projected[|b.starts|] <= ChainStart(s') + QueuedMs(s.batches))
    ensures Inv(s')
  {
    forall i | 0 <= i < |s'.batches|
      ensures BatchOk(s'.batches[i]) && InTime(s', i)
    {
      assert s'.batches[..i] == s.batches[..i];
      if i < |s.batches| {
        assert InTime(s, i);
      } else {
        assert s.batches[..i] == s.batches;
      }
    }
  }

  lemma BuyKeeps(s: State, ms: nat, quantity: nat)
    requires Inv(s) && quantity > 0
    ensures Inv(Next(s, Buy(ms, quantity)))
  {
    var s' := Next(s, Buy(ms, quantity));
    var b := s'.batches[|s.batches|];
    if s.end.None? && !HasQueue(s.batches) {
      ProjectedInSteps(s.clock, ms, quantity);
      NothingQueued(s.batches);
    } else {
      ProjectedInSteps(ChainStart(s) + QueuedMs(s.batches), ms, quantity);
    }
    AppendKeeps(s, s', b);
  }

  /** The payment promoted from: nothing waits ahead of it, so its next row is due. */
  lemma PromotedBatch(s: State, row: nat, i: nat)
    requires Inv(s) && Oldest(s.batches) == Some(i) && s.end.None? && row in s.batches[i].queued
    ensures var s' := Next(s, Promote(row)); |s'.batches| == |s.batches| && BatchOk(s'.batches[i]) && InTime(s', i)
  {
    assert BatchOk(s.batches[i]) && InTime(s, i);
    NothingQueued(s.batches[..i]);
    assert Next(s, Promote(row)).batches[..i] == s.batches[..i];
  }

  /** The payments after it: the chain ahead of them is as long as before, and runs from now. */
  lemma LaterBatch(s: State, row: nat, first: nat, i: nat)
    requires Inv(s) && Oldest(s.batches) == Some(first) && s.end.None? && row in s.batches[first].queued
    requires first < i < |s.batches|
    ensures var s' := Next(s, Promote(row)); s'.batches[i] == s.batches[i] && BatchOk(s'.batches[i]) && InTime(s', i)
  {
    var b := Next(s, Promote(row)).batches[first];
    assert BatchOk(s.batches[i]) && InTime(s, i);
    assert Next(s, Promote(row)).batches[..i] == s.batches[..i][first := b];
    QueuedMsLess(s.batches[..i], first, b);
  }

  lemma PromoteKeeps(s: State, row: nat)
    requires Inv(s)
    ensures Inv(Next(s, Promote(row)))
  {
    var first := Oldest(s.batches);
    if first.Some? && s.end.None? && row in s.batches[first.value].queued {
      PromotedBatch(s, row, first.value);
      forall i | first.value < i < |s.batches|
        ensures BatchOk(Next(s, Promote(row)).batches[i]) && InTime(Next(s, Promote(row)), i)
      {
        LaterBatch(s, row, first.value, i);
      }
    }
  }

  lemma StepKeeps(s: State, step: Step)
    requires Inv(s)
    ensures Inv(Next(s, step))
  {
    match step
    case Buy(ms, quantity) =>
      if quantity > 0 {
        BuyKeeps(s, ms, quantity);
      }
    case Promote(row) => PromoteKeeps(s, row);
    case _ =>
      forall i | 0 <= i < |s.batches|
        ensures InTime(Next(s, step), i)
      {
        assert InTime(s, i);
      }
  }

  lemma {:induction false} RunKeeps(s: State, steps: seq<Step>)
    requires Init(s)
    ensures Inv(Run(s, steps))
    decreases |steps|
  {
    if steps != [] {
      RunKeeps(s, steps[..|steps| - 1]);
      StepKeeps(Run(s, steps[..|steps| - 1]), steps[|steps| - 1]);
    }
  }

  /**
   * Whichever rows the sweeps take, the k-th row of a payment to start does so no earlier than its
   * k-th projected start.
   */
  lemma KthStartIsNeverEarly(s: State, steps: seq<Step>, i: nat, k: nat)
    requires Init(s) && i < |Run(s, steps).batches| && k < |Run(s, steps).batches[i].starts|
    ensures var b := Run(s, steps).batches[i];
            |b.starts| + |b.queued| == |b.projected| && b.projected[k] <= b.starts[k]
  {
    RunKeeps(s, steps);
  }
}
