/** Threads between artists and planners: an artist's is a request until the planner answers. */
module Messaging {
  import opened Wrappers

  const MAX_PENDING_ARTIST_REQUESTS: nat := 10

  type UserId = nat

  datatype Status = Pending | Accepted | Declined

  // The table is unique on the pair, which stands for the thread's id.
  datatype Pair = Pair(artist: UserId, planner: UserId)

  datatype Thread = Thread(initiatedBy: UserId, status: Status)

  datatype Error =
    | NobodyNamed | NoSuchUser | Yourself | DeclinedBefore | TooManyPending
    | NotFound | NotAParticipant | OnlyThePlanner
    | AlreadyAnswered(status: Status)

  datatype Kind = MessageRequest | MessageRequestAccepted

  datatype Notice = Notice(user: UserId, kind: Kind, thread: Pair)

  // artists and planners are the active users of each role.
  datatype State = State(artists: set<UserId>, planners: set<UserId>, threads: map<Pair, Thread>, notices: seq<Notice>)

  function PendingOf(threads: map<Pair, Thread>, artist: UserId): set<Pair> {
    set p | p in threads && p.artist == artist && threads[p] == Thread(artist, Pending)
  }

  function AfterPlannerStart(s: State, planner: UserId, artist: Option<UserId>): Result<State, Error> {
    if artist.None? then Err(NobodyNamed)
    else if artist.value !in s.artists then Err(NoSuchUser)
    else if artist.value == planner then Err(Yourself)
    else if Pair(artist.value, planner) in s.threads then Ok(s)
    else Ok(s.(threads := s.threads[Pair(artist.value, planner) := Thread(planner, Accepted)]))
  }

  function AfterArtistStart(s: State, artist: UserId, planner: Option<UserId>): Result<State, Error> {
    if planner.None? then Err(NobodyNamed)
    else if planner.value !in s.planners then Err(NoSuchUser)
    else if planner.value == artist then Err(Yourself)
    else
      var pair := Pair(artist, planner.value);
      if pair in s.threads then if s.threads[pair].status.Declined? then Err(DeclinedBefore) else Ok(s)
      else if |PendingOf(s.threads, artist)| >= MAX_PENDING_ARTIST_REQUESTS then Err(TooManyPending)
      else Ok(s.(threads := s.threads[pair := Thread(artist, Pending)],
                 notices := s.notices + [Notice(planner.value, MessageRequest, pair)]))
  }

  /** What the row read at the start of an answer says about it. */
  function ScreenAnswer(threads: map<Pair, Thread>, user: UserId, pair: Pair): Option<Error> {
    if pair !in threads then Some(NotFound)
    else if user != pair.artist && user != pair.planner then Some(NotAParticipant)
    else if user != pair.planner then Some(OnlyThePlanner)
    else if !threads[pair].status.Pending? then Some(AlreadyAnswered(threads[pair].status))
    else None
  }

  function Answered(threads: map<Pair, Thread>, pair: Pair, accept: bool): map<Pair, Thread>
    requires pair in threads
  {
    threads[pair := threads[pair].(status := if accept then Accepted else Declined)]
  }

  function AfterAnswer(s: State, user: UserId, pair: Pair, accept: bool): Result<State, Error> {
    var error := ScreenAnswer(s.threads, user, pair);
    if error.Some? then Err(error.value)
    else Ok(s.(threads := Answered(s.threads, pair, accept),
               notices := if accept then s.notices + [Notice(pair.artist, MessageRequestAccepted, pair)]
                   else s.notices))
  }

  class MessagingService {
    const artists: set<UserId>
    const planners: set<UserId>
    var threads: map<Pair, Thread>
    var notices: seq<Notice>

    ghost function View(): State
      reads this
    {
      State(artists, planners, threads, notices)
    }

    constructor (artists: set<UserId>, planners: set<UserId>)
      ensures View() == State(artists, planners, map[], [])
    {
      this.artists, this.planners, threads, notices := artists, planners, map[], [];
    }

    method StartAsPlanner(planner: UserId, artist: Option<UserId>) returns (r: Result<Pair, Error>)
      modifies this`threads
      ensures match AfterPlannerStart(old(View()), planner, artist)
              case Err(e) => r == Err(e) && View() == old(View())
              case Ok(s) => r == Ok(Pair(artist.value, planner)) && View() == s
    {
      if artist.None? {
        return Err(NobodyNamed);
      }
      if artist.value !in artists {
        return Err(NoSuchUser);
      }
      if artist.value == planner {
        return Err(Yourself);
      }
      var pair := Pair(artist.value, planner);
      if pair !in threads {
        threads := threads[pair := Thread(planner, Accepted)];
      }
      r := Ok(pair);
    }

    method StartAsArtist(artist: UserId, planner: Option<UserId>) returns (r: Result<Pair, Error>)
      modifies this
      ensures match AfterArtistStart(old(View()), artist, planner)
              case Err(e) => r == Err(e) && View() == old(View())
              case Ok(s) => r == Ok(Pair(artist, planner.value)) && View() == s
    {
      if planner.None? {
        return Err(NobodyNamed);
      }
      if planner.value !in planners {
        return Err(NoSuchUser);
      }
      if planner.value == artist {
        return Err(Yourself);
      }
      var pair := Pair(artist, planner.value);
      if pair in threads {
        if threads[pair].status.Declined? {
          return Err(DeclinedBefore);
        }
        return Ok(pair);
      }
      // Counted and inserted under the artist's lock.
      var pending := |PendingOf(threads, artist)|;
      if pending >= MAX_PENDING_ARTIST_REQUESTS {
        return Err(TooManyPending);
      }
      threads := threads[pair := Thread(artist, Pending)];
      notices := notices + [Notice(planner.value, MessageRequest, pair)];
      r := Ok(pair);
    }

    method RespondToRequest(user: UserId, pair: Pair, accept: bool) returns (r: Result<Thread, Error>)
      modifies this
      ensures match AfterAnswer(old(View()), user, pair, accept)
              case Err(e) => r == Err(e) && View() == old(View())
              case Ok(s) => pair in s.threads && r == Ok(s.threads[pair]) && View() == s
    {
      if pair !in threads {
        return Err(NotFound);
      }
      var thread := threads[pair];
      if user != pair.artist && user != pair.planner {
        return Err(NotAParticipant);
      }
      if user != pair.planner {
        return Err(OnlyThePlanner);
      }
      if !thread.status.Pending? {
        return Err(AlreadyAnswered(thread.status));
      }
      threads := threads[pair := threads[pair].(status := if accept then Accepted else Declined)];
      if accept {
        notices := notices + [Notice(pair.artist, MessageRequestAccepted, pair)];
      }
      r := Ok(threads[pair]);
    }
  }

  // ---- Runs of whole calls ----

  datatype Op =
    | PlannerStarts(user: UserId, other: Option<UserId>)
    | ArtistStarts(user: UserId, other: Option<UserId>)
    | Answers(user: UserId, pair: Pair, accept: bool)

  function Attempt(s: State, op: Op): Result<State, Error> {
    match op
    case PlannerStarts(planner, artist) => AfterPlannerStart(s, planner, artist)
    case ArtistStarts(artist, planner) => AfterArtistStart(s, artist, planner)
    case Answers(user, pair, accept) => AfterAnswer(s, user, pair, accept)
  }

  function Apply(s: State, op: Op): State {
    match Attempt(s, op)
    case Ok(s') => s'
    case Err(_) => s
  }

  function Run(s: State, ops: seq<Op>): State {
    if ops == [] then s else Apply(Run(s, ops[..|ops| - 1]), ops[|ops| - 1])
  }

  /** An answered thread is never changed again, so a refused artist cannot ask a second time. */
  lemma {:induction false} AnswersAreFinal(s: State, ops: seq<Op>, pair: Pair)
    requires pair in s.threads && !s.threads[pair].status.Pending?
    ensures pair in Run(s, ops).threads && Run(s, ops).threads[pair] == s.threads[pair]
    ensures s.threads[pair].status.Declined? && pair.planner in s.planners && pair.planner != pair.artist ==>
              AfterArtistStart(Run(s, ops), pair.artist, Some(pair.planner)) == Err(DeclinedBefore)
    decreases |ops|
  {
    RunKeepsUsers(s, ops);
    if ops != [] {
      AnswersAreFinal(s, ops[..|ops| - 1], pair);
    }
  }

  lemma {:induction false} RunKeepsUsers(s: State, ops: seq<Op>)
    ensures Run(s, ops).artists == s.artists && Run(s, ops).planners == s.planners
    decreases |ops|
  {
    if ops != [] {
      RunKeepsUsers(s, ops[..|ops| - 1]);
    }
  }

  /** Nobody but the planner opens a thread: either the planner started it, or answered yes to the artist's request. */
  lemma {:induction false} OpenedByThePlanner(s: State, ops: seq<Op>, pair: Pair)
    requires s.threads == map[]
    requires pair in Run(s, ops).threads && Run(s, ops).threads[pair].status.Accepted?
    ensures PlannerStarts(pair.planner, Some(pair.artist)) in ops || Answers(pair.planner, pair, true) in ops
    decreases |ops|
  {
    var init := ops[..|ops| - 1];
    var mid := Run(s, init);
    if pair in mid.threads && mid.threads[pair].status.Accepted? {
      OpenedByThePlanner(s, init, pair);
    } else {
      assert ops[|ops| - 1] in ops;
    }
  }
}
