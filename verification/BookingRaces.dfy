/** Any number of requests on one booking at once, each acting on a row it read earlier, with the completion sweep. */
module BookingRaces {
  import opened Wrappers
  import opened Bookings

  datatype Phase =
    | Start
    | HasRead(booking: Booking)   // screened on this row, which may be stale by now
    | Refused
    | Lost                        // the swap matched no row
    | Won                         // the swap matched; the notice is still to be sent
    | Told

  datatype Process = Process(user: UserId, request: Request, phase: Phase)

  // Who changed the booking to what; the sweep is nobody.
  datatype Change = Change(status: Status, maker: Option<nat>)

  datatype Sent = Sent(sender: nat, notice: Notice)

  datatype State = State(
    id: BookingId,
    booking: Booking,
    history: seq<Change>,
    sent: seq<Sent>,
    processes: seq<Process>)

  datatype Step = ReadRow(p: nat) | SwapRow(p: nat) | Notify(p: nat) | Complete(yesterday: int)

  function Moved(s: State, p: nat, phase: Phase): State
    requires p < |s.processes|
  {
    s.(processes := s.processes[p := s.processes[p].(phase := phase)])
  }

  function Next(s: State, step: Step): State {
    match step
    case Complete(yesterday) =>
      if Due(s.booking, yesterday) then
        s.(booking := s.booking.(status := Completed), history := s.history + [Change(Completed, None)])
      else s
    case ReadRow(p) =>
      if !(p < |s.processes| && s.processes[p].phase.Start?) then s
      else Moved(s, p, if Screen(s.booking, s.processes[p].user, s.processes[p].request).Some? then Refused
                       else HasRead(s.booking))
    case SwapRow(p) =>
      if !(p < |s.processes| && s.processes[p].phase.HasRead?) then s
      else
        var won := Swap(s.booking, s.processes[p].user, s.processes[p].request);
        if won.None? then Moved(s, p, Lost)
        else Moved(s, p, Won).(booking := won.value, history := s.history + [Change(won.value.status, Some(p))])
    case Notify(p) =>
      if !(p < |s.processes| && s.processes[p].phase.Won?) then s
      else
        var n := NoticeFor(s.booking, s.id, s.processes[p].user, s.processes[p].request);
        Moved(s, p, Told).(sent := s.sent + [Sent(p, n)])
  }

  function Run(s: State, steps: seq<Step>): State {
    if steps == [] then s else Next(Run(s, steps[..|steps| - 1]), steps[|steps| - 1])
  }

  ghost predicate Init(s: State) {
    && s.booking.status.Pending? && s.history == [] && s.sent == []
    && forall p | 0 <= p < |s.processes| :: s.processes[p].phase.Start?
  }

  /** The only ways a booking's life can go: one decision, and after an acceptance one more change. */
  predicate Lawful(history: seq<Change>) {
    && |history| <= 2
    && (|history| >= 1 ==>
          history[0].status.Accepted? || history[0].status.Declined? || history[0].status.Cancelled?)
    && (|history| == 2 ==>
          history[0].status.Accepted? && (history[1].status.Cancelled? || history[1].status.Completed?))
  }

  function Current(history: seq<Change>): Status { if history == [] then Pending else history[|history| - 1].status }

  /** Process p's winning swap is recorded in the history. */
  ghost predicate Recorded(s: State, p: nat) {
    p < |s.processes| && exists j ::
        0 <= j < |s.history| && s.history[j] == Change(Target(s.processes[p].request), Some(p))
  }

  ghost predicate HasSent(s: State, p: nat) { exists k :: 0 <= k < |s.sent| && s.sent[k].sender == p }

  ghost predicate InStep(s: State) { Lawful(s.history) && s.booking.status == Current(s.history) }

  predicate HasWon(phase: Phase) { phase.Won? || phase.Told? }

  ghost predicate MakersWon(s: State) {
    forall j | 0 <= j < |s.history| && s.history[j].maker.Some? ::
      && s.history[j].maker.value < |s.processes|
      && s.history[j].status == Target(s.processes[s.history[j].maker.value].request)
      && HasWon(s.processes[s.history[j].maker.value].phase)
  }

  ghost predicate WinnersRecorded(s: State) {
    forall p | 0 <= p < |s.processes| && HasWon(s.processes[p].phase) :: Recorded(s, p)
  }

  /** Each notice is the one its sender owes, and no process has sent two. */
  ghost predicate NoticesOwed(s: State) {
    && (forall k | 0 <= k < |s.sent| ::
          && s.sent[k].sender < |s.processes| && s.processes[s.sent[k].sender].phase.Told?
          && s.sent[k].notice == NoticeFor(s.booking, s.id, s.processes[s.sent[k].sender].user,
              s.processes[s.sent[k].sender].request))
    && (forall k, l | 0 <= k < l < |s.sent| :: s.sent[k].sender != s.sent[l].sender)
  }

  ghost predicate SentByTold(s: State) {
    NoticesOwed(s) && forall p | 0 <= p < |s.processes| && s.processes[p].phase.Told? :: HasSent(s, p)
  }

  ghost predicate Inv(s: State) { InStep(s) && MakersWon(s) && WinnersRecorded(s) && SentByTold(s) }

  lemma StepKeepsMakers(s: State, step: Step)
    requires MakersWon(s)
    ensures MakersWon(Next(s, step))
  {
  }

  lemma StepKeepsWinners(s: State, step: Step)
    requires WinnersRecorded(s)
    ensures WinnersRecorded(Next(s, step))
  {
    var s' := Next(s, step);
    forall p | 0 <= p < |s'.processes| && HasWon(s'.processes[p].phase)
      ensures Recorded(s', p)
    {
      if HasWon(s.processes[p].phase) {
        assert Recorded(s, p);
        var j :| 0 <= j < |s.history| && s.history[j] == Change(Target(s.processes[p].request), Some(p));
        assert s'.history[j] == s.history[j];
      } else {
        assert s'.history[|s.history|] == Change(Target(s.processes[p].request), Some(p));
      }
    }
  }

  lemma SameParties(s: State, step: Step)
    ensures var s' := Next(s, step);
            && s'.id == s.id && |s'.processes| == |s.processes|
            && s'.booking.artist == s.booking.artist && s'.booking.planner == s.booking.planner
            && forall p | 0 <= p < |s.processes| ::
                 && s'.processes[p].user == s.processes[p].user && s'.processes[p].request == s.processes[p].request
                 && (s.processes[p].phase.Told? ==> s'.processes[p].phase.Told?)
                 && (s'.processes[p].phase.Told? && !s.processes[p].phase.Told? ==>
                     step == Notify(p) && s'.sent != s.sent)
  {
  }

  lemma StepKeepsNotices(s: State, step: Step)
    requires NoticesOwed(s)
    ensures NoticesOwed(Next(s, step))
  {
    SameParties(s, step);
    var s' := Next(s, step);
    assert forall k | 0 <= k < |s.sent| :: s'.sent[k] == s.sent[k];
  }

  lemma StepKeepsSent(s: State, step: Step)
    requires SentByTold(s)
    ensures SentByTold(Next(s, step))
  {
    StepKeepsNotices(s, step);
    var s' := Next(s, step);
    forall p | 0 <= p < |s'.processes| && s'.processes[p].phase.Told?
      ensures HasSent(s', p)
    {
      ToldHasSent(s, step, p);
    }
  }

  lemma ToldHasSent(s: State, step: Step, p: nat)
    requires p < |s.processes| && |Next(s, step).processes| == |s.processes| && Next(s, step).processes[p].phase.Told?
    requires s.processes[p].phase.Told? ==> HasSent(s, p)
    ensures HasSent(Next(s, step), p)
  {
    var s' := Next(s, step);
    if s.processes[p].phase.Told? {
      var k :| 0 <= k < |s.sent| && s.sent[k].sender == p;
      assert s'.sent[k] == s.sent[k];
    } else {
      assert s'.sent[|s.sent|].sender == p;
    }
  }

  lemma {:induction false} RunKeeps(s: State, steps: seq<Step>)
    requires Init(s)
    ensures Inv(Run(s, steps))
    decreases |steps|
  {
    if steps != [] {
      var mid := Run(s, steps[..|steps| - 1]);
      RunKeeps(s, steps[..|steps| - 1]);
      StepKeepsMakers(mid, steps[|steps| - 1]);
      StepKeepsWinners(mid, steps[|steps| - 1]);
      StepKeepsSent(mid, steps[|steps| - 1]);
    }
  }

  /**
   * Whatever the interleaving, the booking is decided once, and after an acceptance changed once
   * more; its row says where it stands.
   */
  lemma {:induction false} StatusesFollowTheGraph(s: State, steps: seq<Step>)
    requires Init(s)
    ensures Lawful(Run(s, steps).history)
    ensures Run(s, steps).booking.status == Current(Run(s, steps).history)
    decreases |steps|
  {
    if steps != [] {
      StatusesFollowTheGraph(s, steps[..|steps| - 1]);
    }
  }

  /** A decided booking stays decided: once declined, cancelled or completed, no further step moves it. */
  lemma {:induction false} TerminalAbsorbs(s: State, steps: seq<Step>)
    requires s.booking.status.Declined? || s.booking.status.Cancelled? || s.booking.status.Completed?
    ensures Run(s, steps).booking == s.booking && Run(s, steps).history == s.history
    decreases |steps|
  {
    if steps != [] {
      TerminalAbsorbs(s, steps[..|steps| - 1]);
    }
  }

  /** The change a notice tells of. */
  lemma ChangeTold(r: State, k: nat) returns (j: nat)
    requires Inv(r) && k < |r.sent|
    ensures j < |r.history| && r.history[j] == Change(r.sent[k].notice.kind, Some(r.sent[k].sender))
  {
    assert Recorded(r, r.sent[k].sender);
    j :| 0 <= j < |r.history|
        && r.history[j] == Change(Target(r.processes[r.sent[k].sender].request), Some(r.sent[k].sender));
  }

  /**
   * Every notice tells of a change its sender really made; no change is told
   * twice; and acceptance and refusal are never both told.
   */
  lemma NoticesAreTrue(s: State, steps: seq<Step>, k: nat, l: nat)
    requires Init(s) && k < |Run(s, steps).sent| && l < |Run(s, steps).sent|
    ensures var r := Run(s, steps);
            && Change(r.sent[k].notice.kind, Some(r.sent[k].sender)) in r.history
            && (k != l ==> r.sent[k].notice.kind != r.sent[l].notice.kind && r.sent[k].sender != r.sent[l].sender)
            && !(r.sent[k].notice.kind.Accepted? && r.sent[l].notice.kind.Declined?)
  {
    RunKeeps(s, steps);
    var r := Run(s, steps);
    var i := ChangeTold(r, k);
    var j := ChangeTold(r, l);
    if k != l {
      assert r.sent[k].sender != r.sent[l].sender && i != j;
    }
  }

  /** Once every winner has sent its notice, every change a request made has been told. */
  lemma NoChangeGoesUntold(s: State, steps: seq<Step>, j: nat)
    requires Init(s) && j < |Run(s, steps).history| && Run(s, steps).history[j].maker.Some?
    requires forall p | 0 <= p < |Run(s, steps).processes| :: !Run(s, steps).processes[p].phase.Won?
    ensures var r := Run(s, steps);
            exists k :: 0 <= k < |r.sent| && r.sent[k].sender == r.history[j].maker.value
                && r.sent[k].notice.kind == r.history[j].status
  {
    RunKeeps(s, steps);
    var r := Run(s, steps);
    var p := r.history[j].maker.value;
    assert HasSent(r, p);
    var k :| 0 <= k < |r.sent| && r.sent[k].sender == p;
  }
}
