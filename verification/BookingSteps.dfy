/** What one request, and the daily trigger, do to a booking, and who is told in a race. */
module BookingSteps {
  import opened Wrappers
  import opened Bookings
  import opened BookingRaces

  /** The user may make the request while the booking is at this status. */
  predicate MayAsk(b: Booking, user: UserId, request: Request, status: Status) {
    match request
    case Accept | Decline => user == b.artist && status.Pending?
    case Cancel => (user == b.artist || user == b.planner) && (status.Pending? || status.Accepted?)
  }

  /** A request passes the first look exactly if the user may make it of the row as read; the answer says why not. */
  lemma ScreenIs(b: Booking, user: UserId, request: Request)
    ensures Screen(b, user, request).None? <==> MayAsk(b, user, request, b.status)
    ensures Screen(b, user, request).Some? ==>
              Screen(b, user, request).value
              == if user == b.artist || (request.Cancel? && user == b.planner) then Already(b.status) else Forbidden
  {
  }

  /** The update goes by the row as it is by then, and changes the status, and whose cancellation it was. */
  lemma SwapIs(b: Booking, user: UserId, request: Request)
    requires user == b.artist || (request.Cancel? && user == b.planner)
    ensures Swap(b, user, request)
            == if !MayAsk(b, user, request, b.status) then None
               else match request
                 case Accept => Some(b.(status := Accepted))
                 case Decline => Some(b.(status := Declined))
                 case Cancel => Some(b.(status := Cancelled, cancelledBy := Some(user)))
  {
  }

  /** Every accepted booking dated yesterday or before is completed, and asked about once: the first time is kept. */
  lemma TriggerCompletes(bookings: map<BookingId, Booking>, yesterday: int, now: int)
    ensures var after := AfterTrigger(bookings, yesterday, now);
            && after.Keys == bookings.Keys
            && forall id | id in bookings ::
                 var b := bookings[id];
                 after[id] ==
                   if !b.status.Accepted? || b.eventDate > yesterday then b
                   else if b.emailsSentAt.Some? then b.(status := Completed)
                   else b.(status := Completed, emailsSentAt := Some(now))
  {
  }

  /** Completing and asking in two steps comes to the same as both at once, and a second trigger changes nothing. */
  lemma TriggerTwice(bookings: map<BookingId, Booking>, yesterday: int, now: int, later: int)
    ensures AfterTrigger(AfterTrigger(bookings, yesterday, now), yesterday, later)
            == AfterTrigger(bookings, yesterday, now)
    ensures AfterCompletion(bookings, yesterday).Keys == bookings.Keys
    ensures forall id | id in bookings ::
              AfterCompletion(bookings, yesterday)[id].status == AfterTrigger(bookings, yesterday, now)[id].status
  {
  }

  // ---- In a race ----

  /** Whoever has got past the first look may make their request, of some status. */
  ghost predicate Entitled(s: State) {
    forall p | 0 <= p < |s.processes| && (s.processes[p].phase.HasRead? || HasWon(s.processes[p].phase)) ::
      if s.processes[p].request.Cancel? then s.processes[p].user in {s.booking.artist, s.booking.planner}
      else s.processes[p].user == s.booking.artist
  }

  /** A cancelled booking carries the name of the one who cancelled it. */
  ghost predicate CancellerNamed(s: State) {
    forall j | 0 <= j < |s.history| && s.history[j].status.Cancelled? ::
      && s.history[j].maker.Some? && s.history[j].maker.value < |s.processes|
      && s.booking.cancelledBy == Some(s.processes[s.history[j].maker.value].user)
  }

  lemma StepKeepsEntitled(s: State, step: Step)
    requires Entitled(s)
    ensures Entitled(Next(s, step))
  {
    SameParties(s, step);
  }

  lemma StepKeepsCanceller(s: State, step: Step)
    requires InStep(s) && CancellerNamed(s)
    ensures CancellerNamed(Next(s, step))
  {
  }

  /** The sweep has completed nothing but what was due. */
  ghost predicate SweptWhenDue(s: State, steps: seq<Step>) {
    forall j | 0 <= j < |s.history| && s.history[j].maker.None? ::
      && s.history[j].status.Completed?
      && exists k :: 0 <= k < |steps| && steps[k].Complete? && s.booking.eventDate <= steps[k].yesterday
  }

  lemma StepKeepsDue(s: State, steps: seq<Step>, step: Step)
    requires SweptWhenDue(s, steps)
    ensures SweptWhenDue(Next(s, step), steps + [step])
  {
    var s', more := Next(s, step), steps + [step];
    assert s'.booking.eventDate == s.booking.eventDate;
    forall j | 0 <= j < |s'.history| && s'.history[j].maker.None?
      ensures s'.history[j].status.Completed?
      ensures exists k :: 0 <= k < |more| && more[k].Complete? && s.booking.eventDate <= more[k].yesterday
    {
      if j < |s.history| {
        var k :| 0 <= k < |steps| && steps[k].Complete? && s.booking.eventDate <= steps[k].yesterday;
        assert more[k] == steps[k];
      } else {
        assert more[|steps|] == step;
      }
    }
  }

  lemma {:induction false} RunKeepsMakers(s: State, steps: seq<Step>)
    requires Init(s)
    ensures Entitled(Run(s, steps)) && CancellerNamed(Run(s, steps)) && SweptWhenDue(Run(s, steps), steps)
    ensures Run(s, steps).id == s.id && |Run(s, steps).processes| == |s.processes|
    decreases |steps|
  {
    if steps != [] {
      var init, last := steps[..|steps| - 1], steps[|steps| - 1];
      RunKeepsMakers(s, init);
      RunKeeps(s, init);
      SameParties(Run(s, init), last);
      StepKeepsEntitled(Run(s, init), last);
      StepKeepsCanceller(Run(s, init), last);
      StepKeepsDue(Run(s, init), init, last);
      assert steps == init + [last];
    }
  }

  /**
   * Every change was made by somebody entitled to it: a decision by the artist, a cancellation by
   * the party it names, a completion by a sweep after the day.
   */
  lemma MadeByTheRightParty(s: State, steps: seq<Step>, j: nat)
    requires Init(s) && j < |Run(s, steps).history|
    ensures var r := Run(s, steps);
            var change := r.history[j];
            match change.maker
            case None =>
              change.status.Completed?
              && exists k :: 0 <= k < |steps| && steps[k].Complete? && r.booking.eventDate <= steps[k].yesterday
            case Some(p) =>
              p < |r.processes|
              && var maker := r.processes[p];
                 && (change.status.Accepted? <==> maker.request.Accept?)
                 && (change.status.Declined? <==> maker.request.Decline?)
                 && (change.status.Cancelled? <==> maker.request.Cancel?)
                 && (if maker.request.Cancel? then
                       maker.user in {r.booking.artist, r.booking.planner} && r.booking.cancelledBy == Some(maker.user)
                     else maker.user == r.booking.artist)
  {
    RunKeeps(s, steps);
    RunKeepsMakers(s, steps);
  }

  /** Every notice is about this booking, says what its sender did, and goes to the other party. */
  lemma NoticesGoToTheOther(s: State, steps: seq<Step>, k: nat)
    requires Init(s) && k < |Run(s, steps).sent|
    ensures var r := Run(s, steps);
            var sent := r.sent[k];
            && sent.sender < |r.processes| && sent.notice.booking == s.id
            && var sender := r.processes[sent.sender];
               && sent.notice.kind == (match sender.request case Accept => Accepted case Decline => Declined
                                       case Cancel => Cancelled)
               && sender.user in {r.booking.artist, r.booking.planner}
               && sent.notice.user == if sender.user == r.booking.artist then r.booking.planner else r.booking.artist
  {
    RunKeeps(s, steps);
    RunKeepsMakers(s, steps);
  }

  /** Undisturbed, a request that may be made is: read, swapped in and told. */
  lemma UndisturbedWins(s: State, p: nat)
    requires p < |s.processes| && s.processes[p].phase.Start?
    requires MayAsk(s.booking, s.processes[p].user, s.processes[p].request, s.booking.status)
    ensures var r := Next(Next(Next(s, ReadRow(p)), SwapRow(p)), Notify(p));
            && r.processes == s.processes[p := s.processes[p].(phase := Told)]
            && |r.history| == |s.history| + 1 && r.history[|s.history|] == Change(r.booking.status, Some(p))
            && |r.sent| == |s.sent| + 1 && r.sent[|s.sent|].sender == p
            && Some(r.booking) == Swap(s.booking, s.processes[p].user, s.processes[p].request)
  {
  }
}
