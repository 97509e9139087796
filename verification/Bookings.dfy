/** Booking decisions by compare-and-swap, and the notices that follow them. */
module Bookings {
  import opened Wrappers

  type UserId = nat
  type BookingId = nat

  datatype Status = Pending | Accepted | Declined | Cancelled | Completed

  datatype Booking = Booking(
    artist: UserId,
    planner: UserId,
    eventDate: int,
    status: Status,
    cancelledBy: Option<UserId>,
    emailsSentAt: Option<int>)

  datatype Request = Accept | Decline | Cancel

  datatype Error = NotFound | Forbidden | Already(status: Status) | ConcurrentChange

  // kind is what the notice says happened.
  datatype Notice = Notice(user: UserId, booking: BookingId, kind: Status)

  function Target(request: Request): Status {
    match request
    case Accept => Accepted
    case Decline => Declined
    case Cancel => Cancelled
  }

  /** The statuses a request is allowed from; the WHERE clause repeats the same set. */
  predicate AllowedFrom(request: Request, status: Status) {
    if request.Cancel? then status.Pending? || status.Accepted? else status.Pending?
  }

  /** What the row read at the start of the request says about it. */
  function Screen(b: Booking, user: UserId, request: Request): Option<Error> {
    if user != b.artist && user != b.planner then Some(Forbidden)
    else if !request.Cancel? && user != b.artist then Some(Forbidden)
    else if !AllowedFrom(request, b.status) then Some(Already(b.status))
    else None
  }

  /** The conditional update, on whatever the row is by now; None when it matches no row. */
  function Swap(b: Booking, user: UserId, request: Request): Option<Booking> {
    if !AllowedFrom(request, b.status) then None
    else if request.Cancel? then Some(b.(status := Cancelled, cancelledBy := Some(user)))
    else Some(b.(status := Target(request)))
  }

  /** The planner hears of a decision, the other party of a cancellation. */
  function NoticeFor(b: Booking, id: BookingId, user: UserId, request: Request): Notice {
    Notice(if request.Cancel? && user != b.artist then b.artist else b.planner, id, Target(request))
  }

  class BookingsService {
    var bookings: map<BookingId, Booking>
    var notifications: seq<Notice>

    constructor (bookings: map<BookingId, Booking>)
      ensures this.bookings == bookings && notifications == []
    {
      this.bookings, notifications := bookings, [];
    }

    /** The read every request starts with; what it returns may be stale when it is used. */
    method FindAndAssertParticipant(user: UserId, id: BookingId) returns (r: Result<Booking, Error>)
      ensures r == if id !in bookings then Err(NotFound)
                   else if user != bookings[id].artist && user != bookings[id].planner then Err(Forbidden)
                   else Ok(bookings[id])
    {
      if id !in bookings {
        return Err(NotFound);
      }
      var booking := bookings[id];
      if booking.artist != user && booking.planner != user {
        return Err(Forbidden);
      }
      r := Ok(booking);
    }

    /** The rest of respond, given the row it read. */
    method Respond(user: UserId, id: BookingId, accept: bool, booking: Booking) returns (r: Result<Booking, Error>)
      requires id in bookings && (user == booking.artist || user == booking.planner)
      modifies this
      ensures Outcome(old(bookings), old(notifications), bookings, notifications, user, id,
                      if accept then Accept else Decline, booking, r)
    {
      if booking.artist != user {
        return Err(Forbidden);
      }
      if !booking.status.Pending? {
        return Err(Already(booking.status));
      }
      if accept {
        if !bookings[id].status.Pending? {
          return Err(ConcurrentChange);
        }
        bookings := bookings[id := bookings[id].(status := Accepted)];
        notifications := notifications + [Notice(booking.planner, id, Accepted)];
      } else {
        if !bookings[id].status.Pending? {
          return Err(ConcurrentChange);
        }
        bookings := bookings[id := bookings[id].(status := Declined)];
        notifications := notifications + [Notice(booking.planner, id, Declined)];
      }
      r := Ok(bookings[id]);
    }

    method CancelBooking(user: UserId, id: BookingId, booking: Booking) returns (r: Result<Booking, Error>)
      requires id in bookings && (user == booking.artist || user == booking.planner)
      modifies this
      ensures Outcome(old(bookings), old(notifications), bookings, notifications, user, id, Cancel, booking, r)
    {
      if !booking.status.Pending? && !booking.status.Accepted? {
        return Err(Already(booking.status));
      }
      if !bookings[id].status.Pending? && !bookings[id].status.Accepted? {
        return Err(ConcurrentChange);
      }
      bookings := bookings[id := bookings[id].(status := Cancelled, cancelledBy := Some(user))];
      var otherParty := if user == booking.artist then booking.planner else booking.artist;
      notifications := notifications + [Notice(otherParty, id, Cancelled)];
      r := Ok(bookings[id]);
    }

    /**
     * One whole request, acting on the row it reads: what is allowed happens, and nobody is told of
     * a concurrent change.
     */
    method Handle(user: UserId, id: BookingId, request: Request) returns (r: Result<Booking, Error>)
      modifies this
      ensures r.Ok? <==>
                && id in old(bookings)
                && (user == old(bookings)[id].artist || (request.Cancel? && user == old(bookings)[id].planner))
                && AllowedFrom(request, old(bookings)[id].status)
      ensures r != Err(ConcurrentChange)
      ensures r.Err? ==> bookings == old(bookings) && notifications == old(notifications)
      ensures r.Ok? ==>
                && bookings == old(bookings)[id := r.value] && r.value.status == Target(request)
                && notifications == old(notifications) + [NoticeFor(r.value, id, user, request)]
    {
      var read := FindAndAssertParticipant(user, id);
      if read.Err? {
        return Err(read.error);
      }
      match request {
        case Accept => r := Respond(user, id, true, read.value);
        case Decline => r := Respond(user, id, false, read.value);
        case Cancel => r := CancelBooking(user, id, read.value);
      }
    }

    /** Accepted bookings whose event was yesterday or before. */
    method MarkCompletedBatch(yesterday: int) returns (completed: set<BookingId>)
      modifies this`bookings
      ensures completed == set id | id in old(bookings) && Due(old(bookings)[id], yesterday)
      ensures bookings == AfterCompletion(old(bookings), yesterday)
    {
      completed := set id | id in bookings && Due(bookings[id], yesterday);
      bookings := map id | id in bookings ::
          if id in completed then bookings[id].(status := Completed) else bookings[id];
    }

    /** Completes what is due, then stamps each booking the first time, which starts its review window. */
    method DoDailyReviewTrigger(yesterday: int, now: int)
      modifies this`bookings
      ensures bookings == AfterTrigger(old(bookings), yesterday, now)
    {
      ghost var before := bookings;
      var completed := MarkCompletedBatch(yesterday);
      ghost var all := completed;
      while completed != {}
        invariant completed <= all && bookings.Keys == before.Keys
        invariant forall id | id in before :: bookings[id] ==
                    if id !in all then before[id]
                    else if id in completed || before[id].emailsSentAt.Some? then before[id].(status := Completed)
                    else before[id].(status := Completed, emailsSentAt := Some(now))
      {
        var id :| id in completed;
        if bookings[id].emailsSentAt.None? {
          bookings := bookings[id := bookings[id].(emailsSentAt := Some(now))];
        }
        completed := completed - {id};
      }
    }
  }

  predicate Due(b: Booking, yesterday: int) { b.status.Accepted? && b.eventDate <= yesterday }

  function AfterCompletion(bookings: map<BookingId, Booking>, yesterday: int): map<BookingId, Booking> {
    map id | id in bookings :: if Due(bookings[id], yesterday) then bookings[id].(status := Completed) else bookings[id]
  }

  function Triggered(b: Booking, yesterday: int, now: int): Booking {
    if !Due(b, yesterday) then b
    else b.(status := Completed, emailsSentAt := if b.emailsSentAt.Some? then b.emailsSentAt else Some(now))
  }

  function AfterTrigger(bookings: map<BookingId, Booking>, yesterday: int, now: int): map<BookingId, Booking> {
    map id | id in bookings :: Triggered(bookings[id], yesterday, now)
  }

  /** Exactly one row and one notice if the swap wins, and nothing at all if it does not. */
  ghost predicate Outcome(bookings: map<BookingId, Booking>, notices: seq<Notice>,
                          bookings': map<BookingId, Booking>, notices': seq<Notice>,
                          user: UserId, id: BookingId, request: Request, read: Booking, r: Result<Booking, Error>)
    requires id in bookings
  {
    var won := Swap(bookings[id], user, request);
    if Screen(read, user, request).Some? then
      r == Err(Screen(read, user, request).value) && bookings' == bookings && notices' == notices
    else if won.None? then r == Err(ConcurrentChange) && bookings' == bookings && notices' == notices
    else
      && r == Ok(won.value) && bookings' == bookings[id := won.value]
      && notices' == notices + [NoticeFor(read, id, user, request)]
  }
}
