/** Blindness of reviews, and the truth of the cached ratings, over every run. */
module ReviewRuns {
  import opened Wrappers
  import opened Bookings
  import opened Reviews

  datatype Op =
    | Tick(ms: nat)
    | Book(id: BookingId, artist: UserId, planner: UserId, eventDate: int)
    | Decide(id: BookingId, user: UserId, request: Request)
    | Trigger(yesterday: int)
    | SubmitReview(reviewer: UserId, booking: BookingId, score: Score)
    | UnlockExpired
    | AdminRemove(id: ReviewId)

  function Apply(s: State, op: Op): State {
    match op
    case Tick(ms) => s.(clock := s.clock + ms)
    case Book(id, artist, planner, eventDate) =>
      if id in s.bookings then s
      else s.(bookings := s.bookings[id := Booking(artist, planner, eventDate, Pending, None, None)])
    case Decide(id, user, request) =>
      if id !in s.bookings || Swap(s.bookings[id], user, request).None? then s
      else s.(bookings := s.bookings[id := Swap(s.bookings[id], user, request).value])
    case Trigger(yesterday) => s.(bookings := AfterTrigger(s.bookings, yesterday, s.clock))
    case SubmitReview(reviewer, booking, score) =>
      (match Submit(s, reviewer, booking, score) case Ok(s') => s' case Err(_) => s)
    case UnlockExpired => Show(s, ExpiredBookings(s))
    case AdminRemove(id) => (match Remove(s, id) case Ok(s') => s' case Err(_) => s)
  }

  function Run(s: State, ops: seq<Op>): State {
    if ops == [] then s else Apply(Run(s, ops[..|ops| - 1]), ops[|ops| - 1])
  }

  /** No reviews yet, and no ratings. */
  ghost predicate Init(s: State) {
    && s.bookings == map[] && s.reviews == []
    && forall u | u in s.profiles :: s.profiles[u] == Aggregate(None, 0)
  }

  ghost predicate Reachable(s: State) {
    exists s0: State, ops: seq<Op> :: Init(s0) && s == Run(s0, ops)
  }

  // ---- Who reviews whom ----

  /** Reviews are by one participant of a completed booking about the other, one each. */
  ghost predicate ReviewOk(s: State, i: nat)
    requires i < |s.reviews|
  {
    var r := s.reviews[i];
    && r.booking in s.bookings && s.bookings[r.booking].status.Completed?
    && var b := s.bookings[r.booking];
       && (r.reviewer == b.artist || r.reviewer == b.planner)
       && r.reviewee == Other(b, r.reviewer)
  }

  ghost predicate OneEach(reviews: seq<Review>) {
    forall i, j | 0 <= i < j < |reviews| && reviews[i].booking == reviews[j].booking ::
      reviews[i].reviewer != reviews[j].reviewer
  }

  ghost predicate HasReviewed(reviews: seq<Review>, user: UserId, booking: BookingId) {
    exists i :: 0 <= i < |reviews| && reviews[i].booking == booking && reviews[i].reviewer == user
  }

  ghost predicate MayShow(s: State, booking: BookingId)
    requires booking in s.bookings
  {
    || (HasReviewed(s.reviews, s.bookings[booking].artist, booking)
        && HasReviewed(s.reviews, s.bookings[booking].planner, booking))
    || WindowOver(s.bookings[booking], s.clock)
  }

  ghost predicate Blind(s: State) {
    forall i | 0 <= i < |s.reviews| && s.reviews[i].visible ::
      s.reviews[i].booking in s.bookings && MayShow(s, s.reviews[i].booking)
  }

  ghost predicate RatingsTrue(s: State) {
    forall u | u in s.profiles :: s.profiles[u] == AggregateOf(s.reviews, u)
  }

  ghost predicate Inv(s: State) {
    && (forall i | 0 <= i < |s.reviews| :: ReviewOk(s, i))
    && OneEach(s.reviews) && Blind(s) && RatingsTrue(s)
  }

  // ---- Ratings ----

  /** A user's rating depends only on what is visible about them. */
  lemma {:induction false} SameAggregate(reviews: seq<Review>, reviews': seq<Review>, user: UserId)
    requires |reviews| == |reviews'|
    requires forall i | 0 <= i < |reviews| ::
               reviews'[i].reviewee == reviews[i].reviewee
               && (reviews[i].reviewee == user ==>
                     reviews'[i].visible == reviews[i].visible && reviews'[i].score == reviews[i].score)
    ensures AggregateOf(reviews', user) == AggregateOf(reviews, user)
    ensures VisibleCount(reviews', user) == VisibleCount(reviews, user)
        && VisibleSum(reviews', user) == VisibleSum(reviews, user)
    decreases |reviews|
  {
    if reviews != [] {
      SameAggregate(reviews[..|reviews| - 1], reviews'[..|reviews| - 1], user);
    }
  }

  lemma ShowKeepsRatings(s: State, bookings: set<BookingId>)
    requires RatingsTrue(s)
    ensures RatingsTrue(Show(s, bookings))
  {
    var s' := Show(s, bookings);
    forall u | u in s'.profiles && u !in Reviewees(s.reviews, bookings)
      ensures AggregateOf(s'.reviews, u) == AggregateOf(s.reviews, u)
    {
      forall i | 0 <= i < |s.reviews| && s.reviews[i].reviewee == u
        ensures s'.reviews[i] == s.reviews[i]
      {
        assert s.reviews[i] in s.reviews;
      }
      SameAggregate(s.reviews, s'.reviews, u);
    }
  }

  lemma RemoveKeepsRatings(s: State, id: ReviewId)
    requires RatingsTrue(s) && id < |s.reviews|
    ensures RatingsTrue(Remove(s, id).value)
  {
    var s' := Remove(s, id).value;
    forall u | u in s'.profiles && u != s.reviews[id].reviewee
      ensures AggregateOf(s'.reviews, u) == AggregateOf(s.reviews, u)
    {
      SameAggregate(s.reviews, s'.reviews, u);
    }
  }

  lemma HiddenKeepsRatings(reviews: seq<Review>, r: Review, user: UserId)
    requires !r.visible
    ensures AggregateOf(reviews + [r], user) == AggregateOf(reviews, user)
  {
    assert (reviews + [r])[..|reviews|] == reviews;
  }

  // ---- Blindness ----

  lemma {:induction false} TwoReviews(reviews: seq<Review>, booking: BookingId)
    ensures CountOf(reviews, booking) >= 1 ==> exists i :: 0 <= i < |reviews| && reviews[i].booking == booking
    ensures CountOf(reviews, booking) >= 2 ==>
              exists i, j :: 0 <= i < j < |reviews| && reviews[i].booking == reviews[j].booking == booking
    decreases |reviews|
  {
    if reviews != [] {
      var init := reviews[..|reviews| - 1];
      TwoReviews(init, booking);
      if CountOf(init, booking) >= 2 {
        var i, j :| 0 <= i < j < |init| && init[i].booking == init[j].booking == booking;
        assert reviews[i].booking == reviews[j].booking == booking;
      } else if CountOf(init, booking) == 1 && reviews[|reviews| - 1].booking == booking {
        var i :| 0 <= i < |init| && init[i].booking == booking;
        assert reviews[i].booking == reviews[|reviews| - 1].booking == booking;
      } else if CountOf(init, booking) == 1 {
        var i :| 0 <= i < |init| && init[i].booking == booking;
        assert reviews[i].booking == booking;
      }
    }
  }

  /** Two reviews of a booking are one from each party. */
  lemma PairIsComplete(s: State, booking: BookingId)
    requires (forall i | 0 <= i < |s.reviews| :: ReviewOk(s, i)) && OneEach(s.reviews)
    requires CountOf(s.reviews, booking) == 2
    ensures booking in s.bookings && MayShow(s, booking)
  {
    TwoReviews(s.reviews, booking);
    var i, j :| 0 <= i < j < |s.reviews| && s.reviews[i].booking == s.reviews[j].booking == booking;
    assert ReviewOk(s, i) && ReviewOk(s, j);
  }

  lemma ShowKeeps(s: State, bookings: set<BookingId>)
    requires Inv(s) && forall b | b in bookings :: b in s.bookings && MayShow(s, b)
    ensures Inv(Show(s, bookings))
  {
    var s' := Show(s, bookings);
    ShowKeepsRatings(s, bookings);
    forall i | 0 <= i < |s'.reviews|
      ensures ReviewOk(s', i)
      ensures s'.reviews[i].visible ==> MayShow(s', s'.reviews[i].booking)
    {
      assert ReviewOk(s, i);
      if s'.reviews[i].visible {
        SameReviewers(s, s', s.reviews[i].booking);
      }
    }
  }

  /** Who has reviewed and whether the window is over outlives any change of the flags and any passing of time. */
  lemma SameReviewers(s: State, s': State, booking: BookingId)
    requires booking in s.bookings && booking in s'.bookings && MayShow(s, booking) && s.clock <= s'.clock
    requires s'.bookings[booking] == s.bookings[booking] && |s.reviews| <= |s'.reviews|
    requires forall i | 0 <= i < |s.reviews| ::
               s'.reviews[i].booking == s.reviews[i].booking && s'.reviews[i].reviewer == s.reviews[i].reviewer
    ensures MayShow(s', booking)
  {
    var b := s.bookings[booking];
    forall user | HasReviewed(s.reviews, user, booking)
      ensures HasReviewed(s'.reviews, user, booking)
    {
      var i :| 0 <= i < |s.reviews| && s.reviews[i].booking == booking && s.reviews[i].reviewer == user;
      assert s'.reviews[i].reviewer == user;
    }
  }

  /** A new hidden review by a participant who had not written yet. */
  lemma AppendKeeps(s: State, r: Review)
    requires Inv(s) && !r.visible && ReviewOk(s.(reviews := s.reviews + [r]), |s.reviews|)
    requires !HasReviewed(s.reviews, r.reviewer, r.booking)
    ensures Inv(s.(reviews := s.reviews + [r]))
  {
    var s' := s.(reviews := s.reviews + [r]);
    forall i | 0 <= i < |s.reviews|
      ensures ReviewOk(s', i)
      ensures s'.reviews[i].visible ==> MayShow(s', s'.reviews[i].booking)
    {
      assert ReviewOk(s, i);
      if s.reviews[i].visible {
        SameReviewers(s, s', s.reviews[i].booking);
      }
    }
    forall u | u in s.profiles
      ensures s'.profiles[u] == AggregateOf(s'.reviews, u)
    {
      HiddenKeepsRatings(s.reviews, r, u);
    }
  }

  lemma SubmitKeeps(s: State, reviewer: UserId, booking: BookingId, score: Score)
    requires Inv(s) && Submit(s, reviewer, booking, score).Ok?
    ensures Inv(Submit(s, reviewer, booking, score).value)
  {
    var b := s.bookings[booking];
    var r := Review(booking, reviewer, Other(b, reviewer), score, false);
    var s' := s.(reviews := s.reviews + [r]);
    assert forall i | 0 <= i < |s.reviews| :: s.reviews[i] in s.reviews;
    AppendKeeps(s, r);
    if CountOf(s'.reviews, booking) == 2 {
      PairIsComplete(s', booking);
      ShowKeeps(s', {booking});
    }
  }

  /** Bookings move on; a completed one stays exactly as it is. */
  lemma BookingStepKeeps(s: State, s': State)
    requires Inv(s) && s'.reviews == s.reviews && s'.profiles == s.profiles && s.clock <= s'.clock
    requires forall id | id in s.bookings ::
               id in s'.bookings && (s.bookings[id].status.Completed? ==> s'.bookings[id] == s.bookings[id])
    ensures Inv(s')
  {
    forall i | 0 <= i < |s.reviews|
      ensures ReviewOk(s', i)
      ensures s'.reviews[i].visible ==> MayShow(s', s'.reviews[i].booking)
    {
      assert ReviewOk(s, i);
      if s.reviews[i].visible {
        SameReviewers(s, s', s.reviews[i].booking);
      }
    }
  }

  lemma RemoveKeeps(s: State, id: ReviewId)
    requires Inv(s) && id < |s.reviews|
    ensures Inv(Remove(s, id).value)
  {
    var s' := Remove(s, id).value;
    RemoveKeepsRatings(s, id);
    forall i | 0 <= i < |s.reviews|
      ensures ReviewOk(s', i)
      ensures s'.reviews[i].visible ==> MayShow(s', s'.reviews[i].booking)
    {
      assert ReviewOk(s, i);
      if s.reviews[i].visible {
        SameReviewers(s, s', s.reviews[i].booking);
      }
    }
  }

  lemma ApplyKeeps(s: State, op: Op)
    requires Inv(s)
    ensures Inv(Apply(s, op))
  {
    match op
    case SubmitReview(reviewer, booking, score) =>
      if Submit(s, reviewer, booking, score).Ok? {
        SubmitKeeps(s, reviewer, booking, score);
      }
    case UnlockExpired => ShowKeeps(s, ExpiredBookings(s));
    case AdminRemove(id) =>
      if id < |s.reviews| {
        RemoveKeeps(s, id);
      }
    case _ => BookingStepKeeps(s, Apply(s, op));
  }

  lemma {:induction false} RunKeeps(s: State, ops: seq<Op>)
    requires Init(s)
    ensures Inv(Run(s, ops))
    decreases |ops|
  {
    if ops != [] {
      RunKeeps(s, ops[..|ops| - 1]);
      ApplyKeeps(Run(s, ops[..|ops| - 1]), ops[|ops| - 1]);
    }
  }

  lemma ReachableInv(s: State)
    requires Reachable(s)
    ensures Inv(s)
  {
    var s0: State, ops: seq<Op> :| Init(s0) && s == Run(s0, ops);
    RunKeeps(s0, ops);
  }

  // ---- What follows ----

  /** A visible review means that both parties have written, or that seven days have passed since they were asked. */
  lemma VisibleOnlyWhenSettled(s: State, i: nat)
    requires Reachable(s) && i < |s.reviews| && s.reviews[i].visible
    ensures s.reviews[i].booking in s.bookings
    ensures var b := s.bookings[s.reviews[i].booking];
            || (HasReviewed(s.reviews, b.artist, s.reviews[i].booking)
                && HasReviewed(s.reviews, b.planner, s.reviews[i].booking))
            || (b.emailsSentAt.Some? && b.emailsSentAt.value + WINDOW_MS <= s.clock)
  {
    ReachableInv(s);
    assert MayShow(s, s.reviews[i].booking);
  }

  /**
   * Once a review of the booking is in view, a participant who has not written
   * can still do so at the very instant the window closes, and at no other.
   */
  lemma NobodyWritesSecondSighted(s: State, i: nat, reviewer: UserId, score: Score)
    requires Reachable(s) && i < |s.reviews| && s.reviews[i].visible
        && !HasReviewed(s.reviews, reviewer, s.reviews[i].booking)
    ensures var booking := s.reviews[i].booking;
            && booking in s.bookings
            && (reviewer in {s.bookings[booking].artist, s.bookings[booking].planner} ==>
                  (Submit(s, reviewer, booking, score).Ok? <==>
                      s.bookings[booking].emailsSentAt == Some(s.clock - WINDOW_MS)))
  {
    ReachableInv(s);
    var booking := s.reviews[i].booking;
    assert ReviewOk(s, i) && MayShow(s, booking);
    assert forall r | r in s.reviews && r.booking == booking :: r.reviewer != reviewer by {
      forall r | r in s.reviews && r.booking == booking
        ensures r.reviewer != reviewer
      {
        var k :| 0 <= k < |s.reviews| && s.reviews[k] == r;
      }
    }
  }

  lemma {:induction false} Counted(reviews: seq<Review>, i: nat)
    requires i < |reviews|
    ensures CountOf(reviews, reviews[i].booking) >= 1
    decreases |reviews|
  {
    if i < |reviews| - 1 {
      Counted(reviews[..|reviews| - 1], i);
    }
  }

  /** Before a party's own review there is at most one, the other's. */
  lemma OthersReviewOnly(s: State, reviewer: UserId, booking: BookingId, score: Score)
    requires Inv(s) && Submit(s, reviewer, booking, score).Ok?
    ensures CountOf(s.reviews, booking) == if HasReviewed(s.reviews, Other(s.bookings[booking], reviewer), booking)
        then 1 else 0
  {
    TwoReviews(s.reviews, booking);
    assert forall i | 0 <= i < |s.reviews| :: s.reviews[i] in s.reviews && ReviewOk(s, i);
    if i :| 0 <= i < |s.reviews| && s.reviews[i].booking == booking {
      Counted(s.reviews, i);
    }
  }

  /** A submission brings its booking's reviews into view exactly when the other party had already written. */
  lemma PairIsShown(s: State, reviewer: UserId, booking: BookingId, score: Score)
    requires Reachable(s) && Submit(s, reviewer, booking, score).Ok?
    ensures var reviews := Submit(s, reviewer, booking, score).value.reviews;
            && |reviews| == |s.reviews| + 1 && reviews[|s.reviews|].reviewer == reviewer
            && ((forall i | 0 <= i < |reviews| && reviews[i].booking == booking :: reviews[i].visible)
                <==> HasReviewed(s.reviews, Other(s.bookings[booking], reviewer), booking))
  {
    ReachableInv(s);
    OthersReviewOnly(s, reviewer, booking, score);
    var reviews, n := Submit(s, reviewer, booking, score).value.reviews, |s.reviews|;
    var r := Review(booking, reviewer, Other(s.bookings[booking], reviewer), score, false);
    assert (s.reviews + [r])[..n] == s.reviews;
    assert CountOf(s.reviews + [r], booking) == CountOf(s.reviews, booking) + 1;
    if CountOf(s.reviews, booking) == 0 {
      assert reviews[n] == r;
    }
  }

  /** Every profile's count and average are those of the visible reviews about its user. */
  lemma RatingsAgree(s: State, user: UserId)
    requires Reachable(s) && user in s.profiles
    ensures s.profiles[user].count == VisibleCount(s.reviews, user)
    ensures s.profiles[user].avg.Some? <==> s.profiles[user].count > 0
    ensures s.profiles[user].avg.Some? ==>
              var avg, n, sum := s.profiles[user].avg.value, VisibleCount(s.reviews, user), VisibleSum(s.reviews, user);
              100 <= avg <= 500 && 200 * sum - n <= 2 * n * avg <= 200 * sum + n
  {
    ReachableInv(s);
    var n, sum := VisibleCount(s.reviews, user), VisibleSum(s.reviews, user);
    if n > 0 {
      SumInRange(s.reviews, user);
      MeanIsNearest(sum, n);
    }
  }

  lemma {:induction false} SumInRange(reviews: seq<Review>, user: UserId)
    ensures VisibleCount(reviews, user) <= VisibleSum(reviews, user) <= 5 * VisibleCount(reviews, user)
    decreases |reviews|
  {
    if reviews != [] {
      SumInRange(reviews[..|reviews| - 1], user);
    }
  }

  lemma QuotientBounds(x: int, d: int, lo: int, hi: int)
    requires d > 0 && d * lo <= x < d * hi
    ensures lo <= x / d < hi
    ensures x - d < d * (x / d) <= x
  {
    var q := x / d;
    assert x == d * q + x % d;
    assert q + 1 <= lo ==> d * (q + 1) <= d * lo;
    assert hi <= q ==> d * hi <= d * q;
  }

  /** The average lies on the five-point scale, within half a hundredth of the true mean. */
  lemma MeanIsNearest(sum: nat, n: nat)
    requires n > 0 && n <= sum <= 5 * n
    ensures 100 <= Mean(sum, n) <= 500
    ensures 200 * sum - n <= 2 * n * Mean(sum, n) <= 200 * sum + n
  {
    QuotientBounds(200 * sum + n, 2 * n, 100, 501);
  }

  // ---- Does a removal last? ----

  /** The step shows review id: an unlock with the booking's window over, or the other party's submission. */
  ghost predicate Reshows(s: State, op: Op, id: ReviewId) {
    && id < |s.reviews|
    && (|| (op.UnlockExpired? && s.reviews[id].booking in s.bookings
        && WindowOver(s.bookings[s.reviews[id].booking], s.clock))
        || (op.SubmitReview? && op.booking == s.reviews[id].booking
            && Submit(s, op.reviewer, op.booking, op.score).Ok?))
  }

  lemma StepShows(s: State, op: Op, id: ReviewId)
    requires Inv(s) && id < |s.reviews| && op != AdminRemove(id)
    ensures id < |Apply(s, op).reviews| && Apply(s, op).reviews[id].booking == s.reviews[id].booking
    ensures Apply(s, op).reviews[id].visible <==> s.reviews[id].visible || Reshows(s, op, id)
  {
    assert s.reviews[id] in s.reviews && ReviewOk(s, id);
    if op.SubmitReview? && Submit(s, op.reviewer, op.booking, op.score).Ok? {
      OthersReviewOnly(s, op.reviewer, op.booking, op.score);
      var r := Review(op.booking, op.reviewer, Other(s.bookings[op.booking], op.reviewer), op.score, false);
      assert (s.reviews + [r])[..|s.reviews|] == s.reviews;
      if op.booking == s.reviews[id].booking {
        Counted(s.reviews, id);
      }
    }
  }

  /** Step k of a run shows review id. */
  ghost predicate ReshownBy(s: State, ops: seq<Op>, id: ReviewId, k: nat)
  {
    k < |ops| && Reshows(Run(s, ops[..k]), ops[k], id)
  }

  lemma PrefixReshows(s: State, ops: seq<Op>, id: ReviewId, k: nat)
    requires k < |ops| - 1
    ensures ReshownBy(s, ops, id, k) <==> ReshownBy(s, ops[..|ops| - 1], id, k)
  {
    assert ops[..|ops| - 1][..k] == ops[..k];
  }

  lemma {:induction false} ShownSince(s: State, ops: seq<Op>, id: ReviewId)
    requires Inv(s) && id < |s.reviews| && AdminRemove(id) !in ops
    ensures Inv(Run(s, ops)) && id < |Run(s, ops).reviews|
    ensures Run(s, ops).reviews[id].visible <==> s.reviews[id].visible || exists k :: ReshownBy(s, ops, id, k)
    decreases |ops|
  {
    if ops != [] {
      var n := |ops| - 1;
      assert ops[n] in ops;
      ShownSince(s, ops[..n], id);
      ApplyKeeps(Run(s, ops[..n]), ops[n]);
      StepShows(Run(s, ops[..n]), ops[n], id);
      forall k: nat | k < n
        ensures ReshownBy(s, ops, id, k) <==> ReshownBy(s, ops[..n], id, k)
      {
        PrefixReshows(s, ops, id, k);
      }
      assert ReshownBy(s, ops, id, n) <==> Reshows(Run(s, ops[..n]), ops[n], id);
    }
  }

  /**
   * A review an admin has removed, and not removed again, is back in view
   * exactly when since then a daily unlock found its booking's window over,
   * or the other party submitted.
   */
  lemma RemovalIsUndone(s: State, id: ReviewId, ops: seq<Op>)
    requires Reachable(s) && id < |s.reviews| && AdminRemove(id) !in ops
    ensures var removed := Apply(s, AdminRemove(id));
            && id < |removed.reviews| && !removed.reviews[id].visible
            && id < |Run(removed, ops).reviews|
            && (Run(removed, ops).reviews[id].visible <==> exists k :: ReshownBy(removed, ops, id, k))
  {
    ReachableInv(s);
    ApplyKeeps(s, AdminRemove(id));
    ShownSince(Apply(s, AdminRemove(id)), ops, id);
  }

  // ---- These things happen ----

  lemma Then(s: State, ops: seq<Op>, op: Op) returns (more: seq<Op>)
    ensures more == ops + [op] && Run(s, more) == Apply(Run(s, ops), op)
  {
    more := ops + [op];
    assert more[..|ops|] == ops;
  }

  const DONE := Booking(1, 2, 0, Completed, None, Some(0))
  const FIRST := Review(0, 1, 2, 5, false)

  /** A booking of artist 1 and planner 2, completed and stamped at time 0, and the artist's review of it. */
  lemma OneReview(s: State) returns (ops: seq<Op>)
    requires s == State(0, map[], [], map[])
    ensures Init(s) && Run(s, ops) == State(0, map[0 := DONE], [FIRST], map[])
  {
    ops := Then(s, [], Book(0, 1, 2, 0));
    ops := Then(s, ops, Decide(0, 1, Accept));
    assert Run(s, ops).bookings == map[0 := Booking(1, 2, 0, Accepted, None, None)];
    ops := Then(s, ops, Trigger(0));
    assert Run(s, ops).bookings == map[0 := DONE];
    var before := Run(s, ops);
    assert before == State(0, map[0 := DONE], [], map[]);
    ops := Then(s, ops, SubmitReview(1, 0, 5));
    assert [FIRST][..0] == [] && CountOf([FIRST], 0) == 1;
    assert before.reviews + [FIRST] == [FIRST];
  }

  /** Removed with the window open, and shown at once by the other party's submission. */
  lemma PairReshows(s: State) returns (ops: seq<Op>)
    requires s == State(0, map[], [], map[])
    ensures var r := Run(s, ops + [AdminRemove(0), SubmitReview(2, 0, 4)]);
            && Init(s) && |r.reviews| == 2 && r.reviews[0].visible && !WindowOver(DONE, r.clock)
  {
    ops := OneReview(s);
    var removed := Then(s, ops, AdminRemove(0));
    var shown := Then(s, removed, SubmitReview(2, 0, 4));
    assert shown == ops + [AdminRemove(0), SubmitReview(2, 0, 4)];
    var t := Run(s, removed);
    assert t.reviews == [FIRST] && [FIRST][..0] == [] && CountOf([FIRST], 0) == 1;
    var both := [FIRST, Review(0, 2, 1, 4, false)];
    assert both[..1] == [FIRST] && CountOf(both, 0) == 2;
    assert t.reviews + [Review(0, 2, 1, 4, false)] == both;
    assert Apply(t, SubmitReview(2, 0, 4)).reviews == Unlocked(both, {0});
  }

  /** Removed with the window open, and shown by an unlock once it is over. */
  lemma UnlockReshows(s: State) returns (ops: seq<Op>)
    requires s == State(0, map[], [], map[])
    ensures var removed := Run(s, ops + [AdminRemove(0)]);
            var r := Run(s, ops + [AdminRemove(0), Tick(WINDOW_MS), UnlockExpired]);
            && Init(s) && !WindowOver(DONE, removed.clock) && |r.reviews| == 1 && r.reviews[0].visible
  {
    ops := OneReview(s);
    var removed := Then(s, ops, AdminRemove(0));
    var later := Then(s, removed, Tick(WINDOW_MS));
    var shown := Then(s, later, UnlockExpired);
    assert shown == ops + [AdminRemove(0), Tick(WINDOW_MS), UnlockExpired];
    var t := Run(s, later);
    assert t.reviews == [FIRST] && t.reviews[0] in t.reviews;
  }

  /** At the closing instant the daily unlock shows the first review, and the second can still be written. */
  lemma SecondSightedAtTheInstant(s: State) returns (ops: seq<Op>)
    requires s == State(0, map[], [], map[])
    ensures var r := Run(s, ops);
            Init(s) && |r.reviews| == 1 && r.reviews[0].visible && Submit(r, 2, 0, 4).Ok?
  {
    ops := OneReview(s);
    ops := Then(s, ops, Tick(WINDOW_MS));
    var t := Run(s, ops);
    ops := Then(s, ops, UnlockExpired);
    assert t.reviews == [FIRST] && t.reviews[0] in t.reviews;
  }
}
