/**
 * Any number of verifications of one code at once, command by command.
 *
 * The stored code is read before the failure is counted, so overlapping
 * verifications all compare against it. The code was issued with no failure
 * counted: the counter then outlives it.
 */
module OtpRaces {
  import opened Otp

  datatype Phase =
    | Start
    | Wrong        // compared a wrong guess, not counted yet
    | Right        // compared a right one, about to delete both keys
    | Spent        // counted the fifth failure or a later one, about to delete both keys
    | Deleted      // the code deleted, the counter still to go
    | Finished

  datatype Process = Process(right: bool, phase: Phase)

  // compared counts the wrong guesses the code has met.
  datatype State = State(alive: bool, attempts: nat, compared: nat, processes: seq<Process>)

  datatype Command = Get | Incr | DelCode | DelAttempts

  datatype Step = Step(p: nat, command: Command) | ExpireCode | ExpireAttempts

  function Moved(s: State, p: nat, phase: Phase): State
    requires p < |s.processes|
  {
    s.(processes := s.processes[p := s.processes[p].(phase := phase)])
  }

  function Next(s: State, step: Step): State {
    match step
    case ExpireCode => s.(alive := false)
    case ExpireAttempts => if s.alive then s else s.(attempts := 0)
    case Step(p, command) => if p < |s.processes| then NextOf(s, p, command) else s
  }

  function NextOf(s: State, p: nat, command: Command): State
    requires p < |s.processes|
  {
    var Process(right, phase) := s.processes[p];
    match command
    case Get =>
      if !phase.Start? then s
      else if !s.alive then Moved(s, p, Finished)
      else if right then Moved(s, p, Right)
      else Moved(s, p, Wrong).(compared := s.compared + 1)
    case Incr =>
      if !phase.Wrong? then s
      else Moved(s, p, if s.attempts + 1 >= MAX_OTP_ATTEMPTS then Spent else Finished).(attempts := s.attempts + 1)
    case DelCode => if phase.Right? || phase.Spent? then Moved(s, p, Deleted).(alive := false) else s
    case DelAttempts => if phase.Deleted? then Moved(s, p, Finished).(attempts := 0) else s
  }

  function Run(s: State, steps: seq<Step>): State {
    if steps == [] then s else Next(Run(s, steps[..|steps| - 1]), steps[|steps| - 1])
  }

  /** A code just issued, no failure counted, nobody verifying yet. */
  ghost predicate Init(s: State) {
    && s.alive && s.attempts == 0 && s.compared == 0
    && forall p | 0 <= p < |s.processes| :: s.processes[p].phase.Start?
  }

  /** How many processes are in one of the phases. */
  function Tally(processes: seq<Process>, phases: set<Phase>): nat {
    if processes == [] then 0
    else
      Tally(processes[..|processes| - 1], phases) + if processes[|processes| - 1].phase in phases then 1 else 0
  }

  /** Verifications between their first command and their last. */
  function InFlight(s: State): nat { Tally(s.processes, {Wrong, Right, Spent, Deleted}) }

  lemma {:induction false} TallyMoved(processes: seq<Process>, p: nat, phase: Phase, phases: set<Phase>)
    requires p < |processes|
    ensures Tally(processes[p := processes[p].(phase := phase)], phases)
        + (if processes[p].phase in phases then 1 else 0)
            == Tally(processes, phases) + if phase in phases then 1 else 0
    decreases |processes|
  {
    var n := |processes| - 1;
    var moved := processes[p := processes[p].(phase := phase)];
    if p < n {
      assert moved[..n] == processes[..n][p := processes[p].(phase := phase)];
      TallyMoved(processes[..n], p, phase, phases);
    } else {
      assert moved[..n] == processes[..n];
    }
  }

  lemma {:induction false} TallyNone(processes: seq<Process>, phases: set<Phase>)
    requires forall p | 0 <= p < |processes| :: processes[p].phase !in phases
    ensures Tally(processes, phases) == 0
    decreases |processes|
  {
    if processes != [] {
      TallyNone(processes[..|processes| - 1], phases);
    }
  }

  lemma {:induction false} TallyMore(processes: seq<Process>, some: set<Phase>, more: set<Phase>)
    requires some <= more
    ensures Tally(processes, some) <= Tally(processes, more)
    decreases |processes|
  {
    if processes != [] {
      TallyMore(processes[..|processes| - 1], some, more);
    }
  }

  /**
   * While the code lives, every wrong guess is counted or about to be, and whoever counted past
   * four is about to end it.
   */
  ghost predicate Inv(s: State) {
    s.alive ==>
      && s.compared == s.attempts + Tally(s.processes, {Wrong})
      && s.attempts < MAX_OTP_ATTEMPTS + Tally(s.processes, {Spent})
      && forall p | 0 <= p < |s.processes| :: !s.processes[p].phase.Deleted?
  }

  lemma StepKeeps(s: State, step: Step)
    requires Inv(s)
    ensures Inv(Next(s, step))
  {
    if step.Step? && step.p < |s.processes| {
      var p, phase := step.p, Next(s, step).processes[step.p].phase;
      TallyMoved(s.processes, p, phase, {Wrong});
      TallyMoved(s.processes, p, phase, {Spent});
      assert s.processes[p].(phase := s.processes[p].phase) == s.processes[p];
    }
  }

  lemma {:induction false} RunKeeps(s: State, steps: seq<Step>)
    requires Init(s)
    ensures Inv(Run(s, steps))
    decreases |steps|
  {
    if steps == [] {
      TallyNone(s.processes, {Wrong});
      TallyNone(s.processes, {Spent});
    } else {
      RunKeeps(s, steps[..|steps| - 1]);
      StepKeeps(Run(s, steps[..|steps| - 1]), steps[|steps| - 1]);
    }
  }

  lemma {:induction false} TallySum(processes: seq<Process>)
    ensures Tally(processes, {Wrong}) + Tally(processes, {Spent}) == Tally(processes, {Wrong, Spent})
    decreases |processes|
  {
    if processes != [] {
      TallySum(processes[..|processes| - 1]);
    }
  }

  /** While it lives, a code has met at most four wrong guesses more than are being dealt with. */
  lemma LivingCodeBound(s: State, steps: seq<Step>)
    requires Init(s) && Run(s, steps).alive
    ensures Run(s, steps).compared <= 4 + InFlight(Run(s, steps))
  {
    RunKeeps(s, steps);
    var processes := Run(s, steps).processes;
    TallySum(processes);
    TallyMore(processes, {Wrong, Spent}, {Wrong, Right, Spent, Deleted});
  }

  /**
   * With at most `most` verifications in flight at any time, a code meets at
   * most 4 + most wrong guesses in its whole life: five, if they take turns.
   */
  lemma {:induction false} OverlapBound(s: State, steps: seq<Step>, most: nat)
    requires Init(s) && forall k | 0 <= k <= |steps| :: InFlight(Run(s, steps[..k])) <= most
    ensures Run(s, steps).compared <= 4 + most
    decreases |steps|
  {
    if steps != [] {
      var init := steps[..|steps| - 1];
      forall k | 0 <= k <= |init|
        ensures InFlight(Run(s, init[..k])) <= most
      {
        assert init[..k] == steps[..k];
      }
      OverlapBound(s, init, most);
      assert steps[..|steps|] == steps;
      if Run(s, steps).compared > Run(s, init).compared {
        LivingCodeBound(s, steps);
      }
    }
  }

  function Gets(n: nat): (steps: seq<Step>)
    ensures |steps| == n
  {
    if n == 0 then [] else Gets(n - 1) + [Step(n - 1, Get)]
  }

  lemma {:induction false} AllRead(s: State, n: nat)
    requires Init(s) && n <= |s.processes| && forall p | 0 <= p < |s.processes| :: !s.processes[p].right
    ensures var r := Run(s, Gets(n));
            && r.alive && r.compared == n && |r.processes| == |s.processes|
            && forall p | n <= p < |s.processes| :: r.processes[p] == s.processes[p]
  {
    if n > 0 {
      AllRead(s, n - 1);
      assert Gets(n)[..n - 1] == Gets(n - 1);
      OneMoreReads(Run(s, Gets(n - 1)), n - 1);
    }
  }

  lemma OneMoreReads(s: State, p: nat)
    requires s.alive && p < |s.processes| && s.processes[p] == Process(false, Start)
    ensures var s' := Next(s, Step(p, Get));
            && s'.alive && s'.compared == s.compared + 1 && |s'.processes| == |s.processes|
            && forall q | 0 <= q < |s.processes| && q != p :: s'.processes[q] == s.processes[q]
  {
  }

  /** And no number caps overlapping ones: any number of verifications that all read first are all compared. */
  lemma NothingCapsOverlap(s: State)
    requires Init(s) && forall p | 0 <= p < |s.processes| :: !s.processes[p].right
    ensures Run(s, Gets(|s.processes|)).compared == |s.processes|
  {
    AllRead(s, |s.processes|);
  }
}
