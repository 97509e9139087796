/**
 * Any number of artists' requests, planners' openings and planners' answers
 * at once, statement by statement, over one table of threads.
 *
 * A statement sees what was committed when it ran. An artist's lock lasts
 * until the transaction ends, and an insert of a pair waits for an
 * uncommitted one of the same pair.
 */
module MessageRaces {
  import opened Messaging

  datatype Phase =
    | Start
    | Unmet                      // read that the pair had no thread
    | Locked                     // an artist, in its transaction, holding its own lock
    | Counted                    // read fewer than ten pending requests
    | Inserted                   // the request is written, not committed
    | Screened                   // a planner about to answer a request it read as pending
    | Finished
    | Stopped                    // turned away or rolled back

  datatype Process =
    | Artist(pair: Pair, phase: Phase)
    | Opener(pair: Pair, phase: Phase)
    | Responder(pair: Pair, accept: bool, phase: Phase)

  // threads holds the committed rows; locks the artists whose lock is held, and by whom.
  datatype State = State(threads: map<Pair, Thread>, locks: map<UserId, nat>, processes: seq<Process>)

  datatype Statement = Read | Lock | Count | Insert | Commit | Rollback | Update

  datatype Step = Step(p: nat, statement: Statement)

  function Moved(s: State, p: nat, phase: Phase): State
    requires p < |s.processes|
  {
    s.(processes := s.processes[p := s.processes[p].(phase := phase)])
  }

  /** Somebody has written a request for the pair and not committed it. */
  predicate InFlight(s: State, pair: Pair) {
    exists p :: 0 <= p < |s.processes| && s.processes[p] == Artist(pair, Inserted)
  }

  /** One statement of process p; one that does not fit its phase, or has to wait, changes nothing. */
  function Next(s: State, step: Step): State {
    var Step(p, statement) := step;
    if p >= |s.processes| then s
    else match s.processes[p]
      case Artist(pair, phase) => NextOfArtist(s, p, statement)
      case Opener(pair, phase) => NextOfOpener(s, p, statement)
      case Responder(pair, accept, phase) => NextOfResponder(s, p, statement)
  }

  function NextOfArtist(s: State, p: nat, statement: Statement): State
    requires p < |s.processes| && s.processes[p].Artist?
  {
    var Artist(pair, phase) := s.processes[p];
    var a := pair.artist;
    match statement
    case Read => if phase.Start? then Moved(s, p, if pair in s.threads then Stopped else Unmet) else s
    case Lock => if phase.Unmet? && a !in s.locks then Moved(s, p, Locked).(locks := s.locks[a := p]) else s
    case Count =>
      if !phase.Locked? then s
      else if |PendingOf(s.threads, a)| >= MAX_PENDING_ARTIST_REQUESTS
          then Moved(s, p, Stopped).(locks := s.locks - {a})
      else Moved(s, p, Counted)
    case Insert =>
      if !phase.Counted? then s
      else if pair in s.threads then Moved(s, p, Stopped).(locks := s.locks - {a})
      else Moved(s, p, Inserted)
    case Commit =>
      if !phase.Inserted? then s
      else Moved(s, p, Finished).(threads := s.threads[pair := Thread(a, Pending)], locks := s.locks - {a})
    case Rollback => if InTransaction(phase) then Moved(s, p, Stopped).(locks := s.locks - {a}) else s
    case Update => s
  }

  predicate InTransaction(phase: Phase) { phase.Locked? || phase.Counted? || phase.Inserted? }

  /** A planner's own thread is accepted from the start, and its insert commits at once. */
  function NextOfOpener(s: State, p: nat, statement: Statement): State
    requires p < |s.processes| && s.processes[p].Opener?
  {
    var Opener(pair, phase) := s.processes[p];
    match statement
    case Read => if phase.Start? then Moved(s, p, if pair in s.threads then Finished else Unmet) else s
    case Insert =>
      if !phase.Unmet? || InFlight(s, pair) then s
      else if pair in s.threads then Moved(s, p, Stopped)
      else Moved(s, p, Finished).(threads := s.threads[pair := Thread(pair.planner, Accepted)])
    case _ => s
  }

  /** The answer is written by id alone, whatever the row has become since it was read. */
  function NextOfResponder(s: State, p: nat, statement: Statement): State
    requires p < |s.processes| && s.processes[p].Responder?
  {
    var Responder(pair, accept, phase) := s.processes[p];
    match statement
    case Read =>
      if !phase.Start? then s
      else Moved(s, p, if ScreenAnswer(s.threads, pair.planner, pair).Some? then Stopped else Screened)
    case Update =>
      if phase.Screened? && pair in s.threads
          then Moved(s, p, Finished).(threads := Answered(s.threads, pair, accept)) else s
    case _ => s
  }

  function Run(s: State, steps: seq<Step>): State {
    if steps == [] then s else Next(Run(s, steps[..|steps| - 1]), steps[|steps| - 1])
  }

  /** Nobody over the cap, nothing locked, everybody about to start. */
  ghost predicate Init(s: State) {
    && s.locks == map[]
    && (forall a: UserId :: UnderCap(s.threads, a))
    && (forall p | 0 <= p < |s.processes| :: s.processes[p].phase.Start?)
  }

  ghost predicate UnderCap(threads: map<Pair, Thread>, artist: UserId) {
    |PendingOf(threads, artist)| <= MAX_PENDING_ARTIST_REQUESTS
  }

  /** Artists inside a transaction hold their lock. */
  ghost predicate LocksHeld(s: State) {
    forall p | 0 <= p < |s.processes| && s.processes[p].Artist? && InTransaction(s.processes[p].phase) ::
      s.processes[p].pair.artist in s.locks && s.locks[s.processes[p].pair.artist] == p
  }

  /** Whoever has counted still has room for one more. */
  ghost predicate RoomLeft(s: State) {
    forall p | 0 <= p < |s.processes| && s.processes[p].Artist?
        && (s.processes[p].phase.Counted? || s.processes[p].phase.Inserted?) ::
      |PendingOf(s.threads, s.processes[p].pair.artist)| < MAX_PENDING_ARTIST_REQUESTS
  }

  /** What is written and not committed is not in the table, so no commit can overwrite a thread. */
  ghost predicate InFlightIsNew(s: State) {
    forall p | 0 <= p < |s.processes| && s.processes[p].Artist? && s.processes[p].phase.Inserted? ::
        s.processes[p].pair !in s.threads
  }

  ghost predicate Inv(s: State) {
    LocksHeld(s) && RoomLeft(s) && InFlightIsNew(s) && forall a: UserId :: UnderCap(s.threads, a)
  }

  lemma OneRowWritten(threads: map<Pair, Thread>, pair: Pair, thread: Thread, a: UserId)
    ensures PendingOf(threads[pair := thread], a)
            == if pair.artist == a && thread == Thread(a, Pending) then PendingOf(threads, a) + {pair}
                else PendingOf(threads, a) - {pair}
  {
  }

  predicate Commits(s: State, step: Step, a: UserId) {
    && step.p < |s.processes| && s.processes[step.p].Artist? && s.processes[step.p].phase.Inserted?
    && step.statement.Commit? && s.processes[step.p].pair.artist == a
  }

  /** A step writes the row of its own pair if any, and a pending one only by committing. */
  lemma OneRowAtMost(s: State, step: Step)
    ensures var threads := Next(s, step).threads;
            || threads == s.threads
            || (step.p < |s.processes|
                && var pair := s.processes[step.p].pair;
                   && pair in threads && threads == s.threads[pair := threads[pair]]
                   && (threads[pair].status.Pending? ==> Commits(s, step, pair.artist)))
  {
  }

  /** A pending request is added by nothing but its own artist's commit. */
  lemma PendingGrowsByCommit(s: State, step: Step, threads: map<Pair, Thread>, a: UserId)
    requires threads == Next(s, step).threads
    ensures PendingOf(threads, a)
            <= PendingOf(s.threads, a) + if Commits(s, step, a) then {s.processes[step.p].pair} else {}
  {
    OneRowAtMost(s, step);
    if threads != s.threads {
      var pair := s.processes[step.p].pair;
      OneRowWritten(s.threads, pair, threads[pair], a);
    }
  }

  lemma Fewer(small: set<Pair>, large: set<Pair>)
    requires small <= large
    ensures |small| <= |large|
  {
    assert large == small + (large - small);
  }

  lemma StepKeepsLocks(s: State, step: Step)
    requires LocksHeld(s)
    ensures LocksHeld(Next(s, step))
  {
    if step.p < |s.processes| {
      match s.processes[step.p]
      case Artist(_, _) => assert LocksHeld(NextOfArtist(s, step.p, step.statement));
      case Opener(_, _) => assert LocksHeld(NextOfOpener(s, step.p, step.statement));
      case Responder(_, _, _) => assert LocksHeld(NextOfResponder(s, step.p, step.statement));
    }
  }

  lemma StepKeepsInFlight(s: State, step: Step)
    requires LocksHeld(s) && InFlightIsNew(s)
    ensures InFlightIsNew(Next(s, step))
  {
    var s' := Next(s, step);
    forall p | 0 <= p < |s'.processes| && s'.processes[p].Artist? && s'.processes[p].phase.Inserted? && p != step.p
      ensures s'.processes[p].pair !in s'.threads
    {
      assert s.processes[p] == s'.processes[p];
      assert s.processes[p] == Artist(s.processes[p].pair, Inserted);
      assert InFlight(s, s.processes[p].pair);
    }
  }

  lemma StepKeepsCap(s: State, step: Step, a: UserId)
    requires Inv(s)
    ensures UnderCap(Next(s, step).threads, a)
  {
    var threads := Next(s, step).threads;
    assert UnderCap(s.threads, a);
    PendingGrowsByCommit(s, step, threads, a);
    if Commits(s, step, a) {
      Fewer(PendingOf(threads, a), PendingOf(s.threads, a) + {s.processes[step.p].pair});
    } else {
      Fewer(PendingOf(threads, a), PendingOf(s.threads, a));
    }
  }

  lemma CountedHasRoom(s: State, step: Step, p: nat)
    requires RoomLeft(s) && p < |s.processes| && Next(s, step).processes[p].Artist?
    requires Next(s, step).processes[p].phase.Counted? || Next(s, step).processes[p].phase.Inserted?
    ensures p == step.p ==> !Commits(s, step, s.processes[p].pair.artist)
    ensures s.processes[p].Artist? && InTransaction(s.processes[p].phase)
    ensures |PendingOf(s.threads, s.processes[p].pair.artist)| < MAX_PENDING_ARTIST_REQUESTS
  {
  }

  /** While one artist's transaction has counted, nobody else can commit a request of that artist. */
  lemma StepKeepsRoom(s: State, step: Step, p: nat)
    requires Inv(s) && p < |s.processes| && Next(s, step).processes[p].Artist?
    requires Next(s, step).processes[p].phase.Counted? || Next(s, step).processes[p].phase.Inserted?
    ensures |PendingOf(Next(s, step).threads, s.processes[p].pair.artist)| < MAX_PENDING_ARTIST_REQUESTS
  {
    var a, threads := s.processes[p].pair.artist, Next(s, step).threads;
    CountedHasRoom(s, step, p);
    assert s.locks[a] == p;
    PendingGrowsByCommit(s, step, threads, a);
    Fewer(PendingOf(threads, a), PendingOf(s.threads, a));
  }

  lemma StepKeeps(s: State, step: Step)
    requires Inv(s)
    ensures Inv(Next(s, step))
  {
    var s' := Next(s, step);
    StepKeepsLocks(s, step);
    StepKeepsInFlight(s, step);
    forall a: UserId
      ensures UnderCap(s'.threads, a)
    {
      StepKeepsCap(s, step, a);
    }
    forall p | 0 <= p < |s'.processes| && s'.processes[p].Artist?
        && (s'.processes[p].phase.Counted? || s'.processes[p].phase.Inserted?)
      ensures |PendingOf(s'.threads, s'.processes[p].pair.artist)| < MAX_PENDING_ARTIST_REQUESTS
    {
      SameCalls(s, step, p);
      StepKeepsRoom(s, step, p);
    }
  }

  lemma SameCalls(s: State, step: Step, p: nat)
    requires p < |s.processes|
    ensures |Next(s, step).processes| == |s.processes| && Next(s, step).processes[p].pair == s.processes[p].pair
    ensures Next(s, step).processes[p].Artist? <==> s.processes[p].Artist?
  {
    if step.p < |s.processes| {
      match s.processes[step.p]
      case Artist(_, _) => assert Next(s, step) == NextOfArtist(s, step.p, step.statement);
      case Opener(_, _) => assert Next(s, step) == NextOfOpener(s, step.p, step.statement);
      case Responder(_, _, _) => assert Next(s, step) == NextOfResponder(s, step.p, step.statement);
    }
  }

  lemma {:induction false} RunKeeps(s: State, steps: seq<Step>)
    requires Init(s)
    ensures Inv(Run(s, steps))
    decreases |steps|
  {
    if steps != [] {
      var mid := Run(s, steps[..|steps| - 1]);
      RunKeeps(s, steps[..|steps| - 1]);
      StepKeeps(mid, steps[|steps| - 1]);
    }
  }

  /** Whatever the interleaving, no artist ever has more than ten requests waiting for an answer. */
  lemma NeverMoreThanTenPending(s: State, steps: seq<Step>, artist: UserId)
    requires Init(s)
    ensures |PendingOf(Run(s, steps).threads, artist)| <= 10
  {
    RunKeeps(s, steps);
    assert UnderCap(Run(s, steps).threads, artist);
  }

  /** One artist's transactions take turns. */
  lemma OneAtATime(s: State, steps: seq<Step>, p: nat, q: nat)
    requires Init(s) && p < |Run(s, steps).processes| && q < |Run(s, steps).processes|
    requires var r := Run(s, steps);
             && r.processes[p].Artist? && InTransaction(r.processes[p].phase)
             && r.processes[q].Artist? && InTransaction(r.processes[q].phase)
             && r.processes[p].pair.artist == r.processes[q].pair.artist
    ensures p == q
  {
    RunKeeps(s, steps);
  }

  /** A thread never disappears and never goes back to pending, though an answer may overwrite another. */
  lemma {:induction false} NeverPendingAgain(s: State, steps: seq<Step>, more: seq<Step>, pair: Pair)
    requires Init(s) && pair in Run(s, steps).threads
    ensures pair in Run(s, steps + more).threads
    ensures Run(s, steps + more).threads[pair].initiatedBy == Run(s, steps).threads[pair].initiatedBy
    ensures Run(s, steps + more).threads[pair].status.Pending? ==> Run(s, steps).threads[pair].status.Pending?
    decreases |more|
  {
    if more == [] {
      assert steps + more == steps;
    } else {
      var init, last := more[..|more| - 1], more[|more| - 1];
      NeverPendingAgain(s, steps, init, pair);
      RunKeeps(s, steps + init);
      assert (steps + more)[..|steps + more| - 1] == steps + init && (steps + more)[|steps + more| - 1] == last;
    }
  }

  // ---- Does an answer last? ----

  function Answer(accept: bool): Status { if accept then Accepted else Declined }

  /**
   * A planner's answer to the pair, other than the one given, that has read the request as pending
   * and is still to be written.
   */
  predicate Contradicts(p: Process, pair: Pair, given: Status) {
    p.Responder? && p.pair == pair && p.phase.Screened? && Answer(p.accept) != given
  }

  ghost predicate Uncontradicted(s: State, pair: Pair, given: Status) {
    forall p | 0 <= p < |s.processes| :: !Contradicts(s.processes[p], pair, given)
  }

  /** An answered thread lets no further answer in, and only one already let in can change it. */
  lemma StepKeepsAnswer(s: State, step: Step, pair: Pair)
    requires InFlightIsNew(s) && pair in s.threads && !s.threads[pair].status.Pending?
    requires Uncontradicted(s, pair, s.threads[pair].status)
    ensures pair in Next(s, step).threads && Next(s, step).threads[pair] == s.threads[pair]
    ensures Uncontradicted(Next(s, step), pair, s.threads[pair].status)
  {
  }

  lemma {:induction false} AnswerStays(s: State, steps: seq<Step>, pair: Pair)
    requires Inv(s) && pair in s.threads && !s.threads[pair].status.Pending?
    requires Uncontradicted(s, pair, s.threads[pair].status)
    ensures Inv(Run(s, steps)) && pair in Run(s, steps).threads && Run(s, steps).threads[pair] == s.threads[pair]
    ensures Uncontradicted(Run(s, steps), pair, s.threads[pair].status)
    decreases |steps|
  {
    if steps != [] {
      AnswerStays(s, steps[..|steps| - 1], pair);
      StepKeeps(Run(s, steps[..|steps| - 1]), steps[|steps| - 1]);
      StepKeepsAnswer(Run(s, steps[..|steps| - 1]), steps[|steps| - 1], pair);
    }
  }

  ghost predicate StillAnswered(s: State, steps: seq<Step>, pair: Pair)
    requires pair in s.threads
  {
    pair in Run(s, steps).threads && Run(s, steps).threads[pair] == s.threads[pair]
  }

  /**
   * An answered thread stays as it is through every continuation exactly when
   * no opposite answer, read while the request was pending, is still to be written.
   */
  lemma AnswerSurvives(s: State, pair: Pair)
    requires Inv(s) && pair in s.threads && !s.threads[pair].status.Pending?
    ensures (forall steps: seq<Step> :: StillAnswered(s, steps, pair)) <==>
        Uncontradicted(s, pair, s.threads[pair].status)
  {
    if Uncontradicted(s, pair, s.threads[pair].status) {
      forall steps: seq<Step>
        ensures StillAnswered(s, steps, pair)
      {
        AnswerStays(s, steps, pair);
      }
    } else {
      var p: nat :| p < |s.processes| && Contradicts(s.processes[p], pair, s.threads[pair].status);
      var steps := [Step(p, Update)];
      assert steps[..0] == [] && Run(s, steps) == Next(s, steps[0]);
      assert !StillAnswered(s, steps, pair);
    }
  }

  /** Two answers that both read the request as pending: the later write wins over an acceptance already written. */
  lemma AnswersCanOverwrite(s: State, pair: Pair)
    requires pair in s.threads && s.threads[pair].status.Pending?
    requires s.processes == [Responder(pair, true, Start), Responder(pair, false, Start)]
    ensures var read := [Step(0, Read), Step(1, Read), Step(0, Update)];
            && pair in Run(s, read).threads && Run(s, read).threads[pair].status.Accepted?
            && pair in Run(s, read + [Step(1, Update)]).threads
            && Run(s, read + [Step(1, Update)]).threads[pair].status.Declined?
  {
    var first, second := [Step(0, Read)], [Step(0, Read), Step(1, Read)];
    var read := [Step(0, Read), Step(1, Read), Step(0, Update)];
    assert first[..0] == [] && second[..1] == first && read[..2] == second;
    assert Run(s, first).processes == [Responder(pair, true, Screened), Responder(pair, false, Start)];
    assert Run(s, second).processes == [Responder(pair, true, Screened), Responder(pair, false, Screened)];
    assert (read + [Step(1, Update)])[..3] == read;
  }
}
