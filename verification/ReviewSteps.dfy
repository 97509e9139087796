/** What a submission, an unlock and a removal do to each review, and what a rating is made of. */
module ReviewSteps {
  import opened Bookings
  import opened Reviews
  import opened ReviewRuns

  const SEVEN_DAYS: int := 604_800_000

  predicate HasWritten(s: State, user: UserId, booking: BookingId) {
    exists r :: r in s.reviews && r.booking == booking && r.reviewer == user
  }

  predicate IsOpen(b: Booking, clock: int) {
    b.status.Completed? && (b.emailsSentAt.Some? ==> clock <= b.emailsSentAt.value + SEVEN_DAYS)
  }

  /** A party to a completed booking writes once, and no later than seven days after being asked. */
  lemma SubmissionSucceeds(s: State, reviewer: UserId, booking: BookingId, score: Score)
    ensures Submit(s, reviewer, booking, score).Ok? <==>
              && booking in s.bookings && IsOpen(s.bookings[booking], s.clock)
              && reviewer in {s.bookings[booking].artist, s.bookings[booking].planner}
              && !HasWritten(s, reviewer, booking)
    ensures Submit(s, reviewer, booking, score).Err? ==>
              var e := Submit(s, reviewer, booking, score).error;
              && (e == NoSuchBooking <==> booking !in s.bookings)
              && (e == NotCompleted <==> booking in s.bookings && !s.bookings[booking].status.Completed?)
              && (e == WindowClosed ==> booking in s.bookings && !IsOpen(s.bookings[booking], s.clock))
              && (e == AlreadySubmitted ==>
                    booking in s.bookings && IsOpen(s.bookings[booking], s.clock) && HasWritten(s, reviewer, booking))
              && (e == NotAParticipant ==>
                    booking in s.bookings && reviewer !in {s.bookings[booking].artist, s.bookings[booking].planner})
              && e != NoSuchReview
  {
  }

  /**
   * It adds one review, by its writer about the other party; it and the other party's come into
   * view together, and nothing else but ratings changes.
   */
  lemma SubmissionAdds(s: State, reviewer: UserId, booking: BookingId, score: Score)
    requires Reachable(s) && Submit(s, reviewer, booking, score).Ok?
    ensures var s', n, b := Apply(s, SubmitReview(reviewer, booking, score)), |s.reviews|, s.bookings[booking];
            var other := if reviewer == b.artist then b.planner else b.artist;
            && s'.clock == s.clock && s'.bookings == s.bookings && |s'.reviews| == n + 1
            && s'.reviews[n] == Review(booking, reviewer, other, score, HasWritten(s, other, booking))
            && forall i | 0 <= i < n ::
                 s'.reviews[i] == if s.reviews[i].booking == booking then s.reviews[i].(visible := true)
                     else s.reviews[i]
  {
    ReachableInv(s);
    OthersReviewOnly(s, reviewer, booking, score);
    WrittenIs(s, Other(s.bookings[booking], reviewer), booking);
    AddedTo(s, reviewer, booking, score);
  }

  /** What it adds goes by how many reviews the booking had. */
  lemma AddedTo(s: State, reviewer: UserId, booking: BookingId, score: Score)
    requires Submit(s, reviewer, booking, score).Ok? && CountOf(s.reviews, booking) <= 1
    ensures var s', n := Submit(s, reviewer, booking, score).value, |s.reviews|;
            && s'.clock == s.clock && s'.bookings == s.bookings && |s'.reviews| == n + 1
            && s'.reviews[n] == Review(booking, reviewer, Other(s.bookings[booking], reviewer), score,
                                       CountOf(s.reviews, booking) == 1)
            && forall i | 0 <= i < n ::
                 s'.reviews[i] == if s.reviews[i].booking == booking then s.reviews[i].(visible := true)
                     else s.reviews[i]
  {
    var r := Review(booking, reviewer, Other(s.bookings[booking], reviewer), score, false);
    assert (s.reviews + [r])[..|s.reviews|] == s.reviews;
    assert CountOf(s.reviews + [r], booking) == CountOf(s.reviews, booking) + 1;
    var reviews := Submit(s, reviewer, booking, score).value.reviews;
    if CountOf(s.reviews, booking) == 1 {
      assert reviews == Unlocked(s.reviews + [r], {booking});
    } else {
      assert reviews == s.reviews + [r];
      NoneYet(s.reviews, booking);
    }
  }

  lemma NoneYet(reviews: seq<Review>, booking: BookingId)
    requires CountOf(reviews, booking) == 0
    ensures forall i | 0 <= i < |reviews| :: reviews[i].booking != booking
  {
    forall i | 0 <= i < |reviews|
      ensures reviews[i].booking != booking
    {
      Counted(reviews, i);
    }
  }

  lemma WrittenIs(s: State, user: UserId, booking: BookingId)
    ensures HasWritten(s, user, booking) <==> HasReviewed(s.reviews, user, booking)
  {
    if i :| 0 <= i < |s.reviews| && s.reviews[i].booking == booking && s.reviews[i].reviewer == user {
      assert s.reviews[i] in s.reviews;
    }
  }

  /** The daily unlock shows exactly what was asked for seven days ago or more, and touches no booking. */
  lemma UnlockShows(s: State, i: nat)
    requires Reachable(s) && i < |s.reviews|
    ensures var s', r := Apply(s, UnlockExpired), s.reviews[i];
            && s'.clock == s.clock && s'.bookings == s.bookings && |s'.reviews| == |s.reviews|
            && r.booking in s.bookings
            && var asked := s.bookings[r.booking].emailsSentAt;
               s'.reviews[i] == if asked.Some? && asked.value + SEVEN_DAYS <= s.clock then r.(visible := true) else r
  {
    ReachableInv(s);
    assert ReviewOk(s, i) && s.reviews[i] in s.reviews;
    if s.reviews[i].visible {
      assert s.reviews[i] == s.reviews[i].(visible := true);
    }
  }

  /** A removal hides one review and touches no other. */
  lemma RemovalHides(s: State, id: ReviewId)
    ensures var s' := Apply(s, AdminRemove(id));
            && s' == s.(reviews := s'.reviews, profiles := s'.profiles) && |s'.reviews| == |s.reviews|
            && (Remove(s, id).Ok? <==> id < |s.reviews|)
            && forall i | 0 <= i < |s.reviews| ::
                 s'.reviews[i] == if i == id then s.reviews[i].(visible := false) else s.reviews[i]
  {
  }

  // ---- Ratings ----

  /** The review is in view and gives the user so many stars. */
  predicate Gives(r: Review, user: UserId, stars: int) { r.reviewee == user && r.visible && r.score == stars }

  /** The reviews in view that give the user so many stars. */
  function Stars(reviews: seq<Review>, user: UserId, stars: int): set<ReviewId> {
    set i: ReviewId | i < |reviews| && Gives(reviews[i], user, stars)
  }

  function Given(reviews: seq<Review>, user: UserId, stars: int): nat { |Stars(reviews, user, stars)| }

  lemma OneReviewMore(reviews: seq<Review>, r: Review, user: UserId, stars: int)
    ensures Given(reviews + [r], user, stars) == Given(reviews, user, stars) + if Gives(r, user, stars) then 1 else 0
  {
    var before, after := Stars(reviews, user, stars), Stars(reviews + [r], user, stars);
    assert |reviews| !in before;
    if Gives(r, user, stars) {
      assert after == before + {|reviews|};
    } else {
      assert after == before;
    }
  }

  /** The count and the sum are those of the stars in view, from one to five. */
  lemma {:induction false} StarsAdd(reviews: seq<Review>, user: UserId)
    ensures VisibleCount(reviews, user)
            == Given(reviews, user, 1) + Given(reviews, user, 2) + Given(reviews, user, 3) + Given(reviews, user, 4)
               + Given(reviews, user, 5)
    ensures VisibleSum(reviews, user)
            == Given(reviews, user, 1) + 2 * Given(reviews, user, 2) + 3 * Given(reviews, user, 3)
               + 4 * Given(reviews, user, 4) + 5 * Given(reviews, user, 5)
    decreases |reviews|
  {
    if reviews == [] {
      assert forall stars :: Stars(reviews, user, stars) == {};
    } else {
      var init, r := reviews[..|reviews| - 1], reviews[|reviews| - 1];
      assert reviews == init + [r];
      StarsAdd(init, user);
      OneReviewMore(init, r, user, 1);
      OneReviewMore(init, r, user, 2);
      OneReviewMore(init, r, user, 3);
      OneReviewMore(init, r, user, 4);
      OneReviewMore(init, r, user, 5);
    }
  }

  /**
   * In every run a profile counts the reviews in view about its user, and averages their stars to
   * the nearest hundredth, halves up.
   */
  lemma ProfileAverages(s: State, user: UserId)
    requires Reachable(s) && user in s.profiles
    ensures var one, two, three, four, five :=
              Given(s.reviews, user, 1), Given(s.reviews, user, 2), Given(s.reviews, user, 3),
                  Given(s.reviews, user, 4),
              Given(s.reviews, user, 5);
            var n, sum := one + two + three + four + five, one + 2 * two + 3 * three + 4 * four + 5 * five;
            && s.profiles[user].count == n
            && (s.profiles[user].avg.None? <==> n == 0)
            && (n > 0 ==> 200 * sum - n < 2 * n * s.profiles[user].avg.value <= 200 * sum + n)
  {
    ReachableInv(s);
    StarsAdd(s.reviews, user);
    var n, sum := VisibleCount(s.reviews, user), VisibleSum(s.reviews, user);
    if n > 0 {
      HalvesUp(sum, n);
    }
  }

  lemma HalvesUp(sum: nat, n: nat)
    requires n > 0
    ensures 200 * sum - n < 2 * n * Mean(sum, n) <= 200 * sum + n
  {
    var q, d := (200 * sum + n) / (2 * n), 2 * n;
    assert 200 * sum + n == d * q + (200 * sum + n) % d;
  }
}
