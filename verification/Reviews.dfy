/** Reviews hidden until both parties have written or the window is over, and the ratings cached from them. */
module Reviews {
  import opened Wrappers
  import opened Bookings

  const WINDOW_MS: int := 7 * 86_400_000

  type ReviewId = nat
  type Score = n: int | 1 <= n <= 5 witness 1

  datatype Review = Review(booking: BookingId, reviewer: UserId, reviewee: UserId, score: Score, visible: bool)

  // avg_rating in hundredths, null without reviews, and review_count.
  datatype Aggregate = Aggregate(avg: Option<int>, count: nat)

  datatype ReviewError = NoSuchBooking | NotCompleted | NotAParticipant | WindowClosed | AlreadySubmitted | NoSuchReview

  datatype State = State(
    clock: int,
    bookings: map<BookingId, Booking>,
    reviews: seq<Review>,
    profiles: map<UserId, Aggregate>)

  // ---- Aggregates ----

  function VisibleCount(reviews: seq<Review>, user: UserId): nat {
    if reviews == [] then 0
    else
      var r := reviews[|reviews| - 1];
      VisibleCount(reviews[..|reviews| - 1], user) + if r.reviewee == user && r.visible then 1 else 0
  }

  function VisibleSum(reviews: seq<Review>, user: UserId): nat {
    if reviews == [] then 0
    else
      var r := reviews[|reviews| - 1];
      VisibleSum(reviews[..|reviews| - 1], user) + if r.reviewee == user && r.visible then r.score else 0
  }

  /** sum / n to two decimals, halves away from zero. */
  function Mean(sum: nat, n: nat): int
    requires n > 0
  {
    (200 * sum + n) / (2 * n)
  }

  function AggregateOf(reviews: seq<Review>, user: UserId): Aggregate {
    var n := VisibleCount(reviews, user);
    Aggregate(if n == 0 then None else Some(Mean(VisibleSum(reviews, user), n)), n)
  }

  /** The profiles with the given users' ratings read again from the reviews. */
  function Refreshed(profiles: map<UserId, Aggregate>, reviews: seq<Review>, users: set<UserId>)
    : map<UserId, Aggregate>
  {
    map u | u in profiles :: if u in users then AggregateOf(reviews, u) else profiles[u]
  }

  // ---- Visibility ----

  function CountOf(reviews: seq<Review>, booking: BookingId): nat {
    if reviews == [] then 0
    else CountOf(reviews[..|reviews| - 1], booking) + if reviews[|reviews| - 1].booking == booking then 1 else 0
  }

  function Unlocked(reviews: seq<Review>, bookings: set<BookingId>): (r: seq<Review>)
    ensures |r| == |reviews|
  {
    seq(|reviews|, i requires 0 <= i < |reviews| =>
      if reviews[i].booking in bookings then reviews[i].(visible := true) else reviews[i])
  }

  function Reviewees(reviews: seq<Review>, bookings: set<BookingId>): set<UserId> {
    set r | r in reviews && r.booking in bookings :: r.reviewee
  }

  /** Everything about some bookings is shown, and the ratings of those reviewed there follow. */
  function Show(s: State, bookings: set<BookingId>): State {
    var reviews := Unlocked(s.reviews, bookings);
    s.(reviews := reviews, profiles := Refreshed(s.profiles, reviews, Reviewees(s.reviews, bookings)))
  }

  predicate WindowOver(b: Booking, clock: int) {
    b.status.Completed? && b.emailsSentAt.Some? && b.emailsSentAt.value <= clock - WINDOW_MS
  }

  /** Completed bookings past their window that still hide something. */
  function ExpiredBookings(s: State): set<BookingId> {
    set r | r in s.reviews && !r.visible && r.booking in s.bookings && WindowOver(s.bookings[r.booking], s.clock) ::
        r.booking
  }

  function Other(b: Booking, user: UserId): UserId {
    if user == b.artist then b.planner else b.artist
  }

  function Submit(s: State, reviewer: UserId, booking: BookingId, score: Score): Result<State, ReviewError> {
    if booking !in s.bookings then Err(NoSuchBooking)
    else
      var b := s.bookings[booking];
      if !b.status.Completed? then Err(NotCompleted)
      else if reviewer != b.artist && reviewer != b.planner then Err(NotAParticipant)
      else if b.emailsSentAt.Some? && s.clock > b.emailsSentAt.value + WINDOW_MS then Err(WindowClosed)
      else if exists r :: r in s.reviews && r.booking == booking && r.reviewer == reviewer then Err(AlreadySubmitted)
      else
        var r := Review(booking, reviewer, Other(b, reviewer), score, false);
        var s' := s.(reviews := s.reviews + [r]);
        Ok(if CountOf(s'.reviews, booking) == 2 then Show(s', {booking}) else s')
  }

  function Remove(s: State, id: ReviewId): Result<State, ReviewError> {
    if id >= |s.reviews| then Err(NoSuchReview)
    else
      var reviews := s.reviews[id := s.reviews[id].(visible := false)];
      Ok(s.(reviews := reviews, profiles := Refreshed(s.profiles, reviews, {s.reviews[id].reviewee})))
  }

  class ReviewsService {
    const bookingsService: BookingsService
    var clock: int
    var reviews: seq<Review>
    var profiles: map<UserId, Aggregate>

    constructor (bookingsService: BookingsService, profiles: map<UserId, Aggregate>, now: int)
      ensures this.bookingsService == bookingsService
      ensures View() == State(now, bookingsService.bookings, [], profiles)
    {
      this.bookingsService, this.profiles, clock, reviews := bookingsService, profiles, now, [];
    }

    ghost function View(): State
      reads this, bookingsService
    {
      State(clock, bookingsService.bookings, reviews, profiles)
    }

    method SubmitReview(reviewer: UserId, booking: BookingId, score: Score) returns (r: Result<ReviewId, ReviewError>)
      modifies this`reviews, this`profiles
      ensures match Submit(old(View()), reviewer, booking, score)
              case Err(e) => r == Err(e) && View() == old(View())
              case Ok(s) => r == Ok(|old(reviews)|) && View() == s
    {
      if booking !in bookingsService.bookings {
        return Err(NoSuchBooking);
      }
      var b := bookingsService.bookings[booking];
      if !b.status.Completed? {
        return Err(NotCompleted);
      }
      var isArtist := b.artist == reviewer;
      if !isArtist && b.planner != reviewer {
        return Err(NotAParticipant);
      }
      if b.emailsSentAt.Some? && clock > b.emailsSentAt.value + WINDOW_MS {
        return Err(WindowClosed);
      }
      if exists r :: r in reviews && r.booking == booking && r.reviewer == reviewer {
        return Err(AlreadySubmitted);
      }
      reviews := reviews + [Review(booking, reviewer, if isArtist then b.planner else b.artist, score, false)];
      TryUnlockPair(booking);
      r := Ok(|reviews| - 1);
    }

    /** Both are shown as soon as both are there. */
    method TryUnlockPair(booking: BookingId)
      modifies this`reviews, this`profiles
      ensures View() == if CountOf(old(reviews), booking) == 2 then Show(old(View()), {booking}) else old(View())
    {
      if CountOf(reviews, booking) == 2 {
        var affected := Reviewees(reviews, {booking});
        MakeVisible({booking});
        RecalculateAll(affected);
      }
    }

    /** UPDATE reviews SET is_visible = true, row by row. */
    method MakeVisible(bookings: set<BookingId>)
      modifies this`reviews
      ensures reviews == Unlocked(old(reviews), bookings)
    {
      ghost var before := reviews;
      for i := 0 to |reviews|
        invariant |reviews| == |before|
        invariant forall k | 0 <= k < |before| ::
            reviews[k] == if k < i then Unlocked(before, bookings)[k] else before[k]
      {
        if reviews[i].booking in bookings {
          reviews := reviews[i := reviews[i].(visible := true)];
        }
      }
    }

    /** Called daily: what the other party never answered is shown in the end. */
    method UnlockExpiredReviews()
      modifies this`reviews, this`profiles
      ensures View() == Show(old(View()), ExpiredBookings(old(View())))
    {
      var bookings := bookingsService.bookings;
      var expired := set r | r in reviews && !r.visible && r.booking in bookings
          && WindowOver(bookings[r.booking], clock) :: r.booking;
      var affected := Reviewees(reviews, expired);
      MakeVisible(expired);
      RecalculateAll(affected);
    }

    method AdminRemove(id: ReviewId) returns (r: Result<(), ReviewError>)
      modifies this`reviews, this`profiles
      ensures match Remove(old(View()), id)
              case Err(e) => r == Err(e) && View() == old(View())
              case Ok(s) => r == Ok(()) && View() == s
    {
      if id >= |reviews| {
        return Err(NoSuchReview);
      }
      ghost var before := profiles;
      reviews := reviews[id := reviews[id].(visible := false)];
      RecalculateAggregate(reviews[id].reviewee);
      assert profiles == Refreshed(before, reviews, {reviews[id].reviewee});
      r := Ok(());
    }

    method RecalculateAll(users: set<UserId>)
      modifies this`profiles
      ensures profiles == Refreshed(old(profiles), reviews, users)
    {
      ghost var before := profiles;
      var left := users;
      while left != {}
        invariant left <= users && profiles == Refreshed(before, reviews, users - left)
      {
        var user :| user in left;
        RecalculateAggregate(user);
        left := left - {user};
      }
      assert users - left == users;
    }

    /** Counts and averages the visible reviews, and writes the profile if there is one. */
    method RecalculateAggregate(user: UserId)
      modifies this`profiles
      ensures profiles == if user in old(profiles) then old(profiles)[user := AggregateOf(reviews, user)]
          else old(profiles)
    {
      var sum, n := 0, 0;
      for i := 0 to |reviews|
        invariant sum == VisibleSum(reviews[..i], user) && n == VisibleCount(reviews[..i], user)
      {
        assert reviews[..i + 1][..i] == reviews[..i];
        if reviews[i].reviewee == user && reviews[i].visible {
          sum, n := sum + reviews[i].score, n + 1;
        }
      }
      assert reviews[..|reviews|] == reviews;
      if user in profiles {
        profiles := profiles[user := Aggregate(if n == 0 then None else Some(Mean(sum, n)), n)];
      }
    }
  }
}
