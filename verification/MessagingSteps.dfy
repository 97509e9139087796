/** What each call makes of the threads and who is told, spelled out on the tables. */
module MessagingSteps {
  import opened Wrappers
  import opened Messaging

  /** The named user is an active one of the role called for, and somebody else. */
  predicate Addressable(role: set<UserId>, caller: UserId, other: Option<UserId>) {
    other.Some? && other.value in role && other.value != caller
  }

  predicate Waits(threads: map<Pair, Thread>, artist: UserId, pair: Pair) {
    pair in threads && pair.artist == artist && threads[pair].initiatedBy == artist && threads[pair].status.Pending?
  }

  /**
   * A planner always reaches an artist: by the thread they have, as it stands, or by an open one of
   * the planner's own.
   */
  lemma PlannerStart(s: State, planner: UserId, artist: Option<UserId>)
    ensures AfterPlannerStart(s, planner, artist).Ok? <==> Addressable(s.artists, planner, artist)
    ensures AfterPlannerStart(s, planner, artist).Err? ==>
              AfterPlannerStart(s, planner, artist).error
              == if artist.None? then NobodyNamed else if artist.value !in s.artists then NoSuchUser else Yourself
    ensures Addressable(s.artists, planner, artist) ==>
              var s', pair := Apply(s, PlannerStarts(planner, artist)), Pair(artist.value, planner);
              && s' == s.(threads := s'.threads)
              && s'.threads
                 == if pair in s.threads then s.threads else s.threads[pair := Thread(planner, Status.Accepted)]
  {
  }

  /**
   * An artist reaches a planner by the thread they have unless it was declined, or else by a request,
   * of which fewer than ten may be waiting already.
   */
  lemma ArtistStart(s: State, artist: UserId, planner: Option<UserId>)
    ensures AfterArtistStart(s, artist, planner).Ok? <==>
              && Addressable(s.planners, artist, planner)
              && var pair := Pair(artist, planner.value);
                 if pair in s.threads then !s.threads[pair].status.Declined?
                 else |set p | p in s.threads && Waits(s.threads, artist, p)| < 10
    ensures AfterArtistStart(s, artist, planner).Err? ==>
              AfterArtistStart(s, artist, planner).error
              == if planner.None? then NobodyNamed else if planner.value !in s.planners then NoSuchUser
                 else if planner.value == artist then Yourself
                 else if Pair(artist, planner.value) in s.threads then DeclinedBefore else TooManyPending
  {
    assert (set p | p in s.threads && Waits(s.threads, artist, p)) == PendingOf(s.threads, artist);
  }

  /** A request taken waits for the planner, who is told of it; asking again along a thread changes nothing. */
  lemma RequestWaits(s: State, artist: UserId, planner: UserId)
    requires AfterArtistStart(s, artist, Some(planner)).Ok?
    ensures var s', pair := Apply(s, ArtistStarts(artist, Some(planner))), Pair(artist, planner);
            s' == if pair in s.threads then s
                  else s.(threads := s.threads[pair := Thread(artist, Status.Pending)],
                          notices := s.notices + [Notice(planner, MessageRequest, pair)])
  {
  }

  /** Only its planner answers a thread, and only while it waits; the artist is told of a yes and not of a no. */
  lemma AnswerSettles(s: State, user: UserId, pair: Pair, accept: bool)
    ensures AfterAnswer(s, user, pair, accept).Ok? <==>
              pair in s.threads && user == pair.planner && s.threads[pair].status.Pending?
    ensures AfterAnswer(s, user, pair, accept).Err? ==>
              AfterAnswer(s, user, pair, accept).error
              == if pair !in s.threads then NotFound
                 else if user == pair.planner then AlreadyAnswered(s.threads[pair].status)
                 else if user == pair.artist then OnlyThePlanner else NotAParticipant
    ensures AfterAnswer(s, user, pair, accept).Ok? ==>
              Apply(s, Answers(user, pair, accept))
              == s.(threads := s.threads[pair := Thread(s.threads[pair].initiatedBy,
                                                        if accept then Status.Accepted else Status.Declined)],
                    notices := if accept then s.notices + [Notice(pair.artist, MessageRequestAccepted, pair)]
                               else s.notices)
  {
  }

  // ---- Over runs ----

  /** Requests are the artists'; nobody has more than ten of them waiting. */
  ghost predicate Kept(s: State) {
    && (forall pair | pair in s.threads :: s.threads[pair].initiatedBy in {pair.artist, pair.planner})
    && (forall pair | pair in s.threads && s.threads[pair].initiatedBy == pair.planner != pair.artist ::
          s.threads[pair].status.Accepted?)
    && (forall artist: UserId :: |PendingOf(s.threads, artist)| <= 10)
  }

  lemma StepKeeps(s: State, op: Op)
    requires Kept(s)
    ensures Kept(Apply(s, op))
  {
    var s' := Apply(s, op);
    forall artist: UserId
      ensures |PendingOf(s'.threads, artist)| <= 10
    {
      PendingAfter(s, op, artist);
    }
  }

  lemma PendingAfter(s: State, op: Op, artist: UserId)
    requires |PendingOf(s.threads, artist)| <= 10
    ensures |PendingOf(Apply(s, op).threads, artist)| <= 10
  {
    var s' := Apply(s, op);
    var before, after := PendingOf(s.threads, artist), PendingOf(s'.threads, artist);
    if op.ArtistStarts? && op.user == artist && s'.threads != s.threads {
      assert after == before + {Pair(artist, op.other.value)};
    } else {
      assert after <= before;
      Fewer(after, before);
    }
  }

  lemma Fewer(a: set<Pair>, b: set<Pair>)
    requires a <= b
    ensures |a| <= |b|
  {
    assert b == a + (b - a);
  }

  /**
   * Over every run of whole calls: a thread belongs to one of its two, a planner's own is open, and
   * ten requests is the most.
   */
  lemma {:induction false} RequestsAreCapped(s: State, ops: seq<Op>)
    requires s.threads == map[]
    ensures Kept(Run(s, ops))
    decreases |ops|
  {
    if ops == [] {
      assert forall artist: UserId :: PendingOf(s.threads, artist) == {};
    } else {
      RequestsAreCapped(s, ops[..|ops| - 1]);
      StepKeeps(Run(s, ops[..|ops| - 1]), ops[|ops| - 1]);
    }
  }
}
