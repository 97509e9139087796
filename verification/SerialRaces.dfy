/**
 * The races refine the whole calls: a process left to itself does, statement
 * by statement, exactly what its call does in one step.
 */
module SerialRaces {
  import opened Wrappers
  import Database
  import Messaging
  import Media
  import Otp
  import Redis
  import ConfirmRace
  import MintRaces
  import MessageRaces
  import MediaRaces
  import OtpRaces

  // ---- Threads ----

  function ArtistAlone(s: MessageRaces.State, p: nat): MessageRaces.State {
    var locked := MessageRaces.Next(MessageRaces.Next(s, MessageRaces.Step(p, MessageRaces.Read)),
                                    MessageRaces.Step(p, MessageRaces.Lock));
    var inserted := MessageRaces.Next(MessageRaces.Next(locked, MessageRaces.Step(p, MessageRaces.Count)),
                                      MessageRaces.Step(p, MessageRaces.Insert));
    MessageRaces.Next(inserted, MessageRaces.Step(p, MessageRaces.Commit))
  }

  /** An artist's request: the thread it finds or makes is the one the whole call does, and the lock is given back. */
  lemma ArtistRefines(s: MessageRaces.State, p: nat, whole: Messaging.State)
    requires p < |s.processes| && s.processes[p].Artist? && s.processes[p].phase.Start?
    requires var pair := s.processes[p].pair;
             pair.artist !in s.locks && pair.planner in whole.planners && pair.artist != pair.planner
    requires whole.threads == s.threads
    ensures var pair := s.processes[p].pair;
            var call := Messaging.AfterArtistStart(whole, pair.artist, Some(pair.planner));
            && ArtistAlone(s, p).threads == (if call.Ok? then call.value.threads else s.threads)
            && ArtistAlone(s, p).locks == s.locks
  {
  }

  function TwoSteps(s: MessageRaces.State, p: nat, second: MessageRaces.Statement): MessageRaces.State {
    MessageRaces.Next(MessageRaces.Next(s, MessageRaces.Step(p, MessageRaces.Read)), MessageRaces.Step(p, second))
  }

  /** A planner's opening, with nobody's request for the pair in flight. */
  lemma OpenerRefines(s: MessageRaces.State, p: nat, whole: Messaging.State)
    requires p < |s.processes| && s.processes[p].Opener? && s.processes[p].phase.Start?
    requires var pair := s.processes[p].pair;
             !MessageRaces.InFlight(s, pair) && pair.artist in whole.artists && pair.artist != pair.planner
    requires whole.threads == s.threads
    ensures var pair := s.processes[p].pair;
            var call := Messaging.AfterPlannerStart(whole, pair.planner, Some(pair.artist));
            call.Ok? && TwoSteps(s, p, MessageRaces.Insert).threads == call.value.threads
  {
    var mid := MessageRaces.Next(s, MessageRaces.Step(p, MessageRaces.Read));
    forall q | 0 <= q < |mid.processes|
      ensures mid.processes[q] != MessageRaces.Artist(s.processes[p].pair, MessageRaces.Inserted)
    {
      assert s.processes[q] != MessageRaces.Artist(s.processes[p].pair, MessageRaces.Inserted);
    }
  }

  /** A planner's answer. */
  lemma ResponderRefines(s: MessageRaces.State, p: nat, whole: Messaging.State)
    requires p < |s.processes| && s.processes[p].Responder? && s.processes[p].phase.Start?
    requires whole.threads == s.threads
    ensures var pair, accept := s.processes[p].pair, s.processes[p].accept;
            var call := Messaging.AfterAnswer(whole, pair.planner, pair, accept);
            TwoSteps(s, p, MessageRaces.Update).threads == if call.Ok? then call.value.threads else s.threads
  {
  }

  // ---- Galleries ----

  ghost function ConfirmAlone(s: MediaRaces.State, p: nat): MediaRaces.State {
    var counted := MediaRaces.Next(MediaRaces.Next(s, MediaRaces.Step(p, MediaRaces.Lock)),
                                   MediaRaces.Step(p, MediaRaces.Count));
    var inserted := MediaRaces.Next(MediaRaces.Next(counted, MediaRaces.Step(p, MediaRaces.Number)),
                                    MediaRaces.Step(p, MediaRaces.Insert));
    MediaRaces.Next(inserted, MediaRaces.Step(p, MediaRaces.Commit))
  }

  /** A confirmation that has passed its checks on the object. */
  lemma ConfirmRefines(s: MediaRaces.State, p: nat, whole: Media.State)
    requires p < |s.processes| && s.processes[p].phase.Start? && s.processes[p].user !in s.locks
    requires whole.cdnBase == s.cdnBase && whole.items == s.items && whole.nextId == s.nextId
    requires Media.Screen(whole.bucket, s.processes[p].user, s.processes[p].upload, true).None?
    ensures var call := Media.AfterConfirm(whole, s.processes[p].user, s.processes[p].upload, true);
            var r := ConfirmAlone(s, p);
            && r.items == (if call.Ok? then call.value.items else s.items)
            && r.nextId == (if call.Ok? then call.value.nextId else s.nextId)
            && r.locks == s.locks
  {
  }

  // ---- Codes ----

  function VerifyAlone(s: OtpRaces.State, p: nat): OtpRaces.State {
    var counted := OtpRaces.Next(OtpRaces.Next(s, OtpRaces.Step(p, OtpRaces.Get)), OtpRaces.Step(p, OtpRaces.Incr));
    OtpRaces.Next(OtpRaces.Next(counted, OtpRaces.Step(p, OtpRaces.DelCode)), OtpRaces.Step(p, OtpRaces.DelAttempts))
  }

  /** The race's state is what the slot holds at the moment. */
  ghost predicate Shows(s: OtpRaces.State, slot: Otp.Slot, now: int) {
    && s.alive == (Redis.Alive(slot.code, now) && slot.code.value.value != "")
    && s.attempts == Otp.Failures(slot, now)
  }

  /**
   * A verification: the code, the counter and the number of wrong guesses it has met come out as
   * from the whole call.
   */
  lemma VerifyRefines(s: OtpRaces.State, p: nat, slot: Otp.Slot, guess: string, now: int)
    requires p < |s.processes| && s.processes[p].phase.Start? && Shows(s, slot, now) && Otp.Rested(slot)
    requires s.alive ==> (s.processes[p].right <==> guess == slot.code.value.value)
    ensures var (slot', answer) := Otp.Verify(slot, guess, now);
            var r := VerifyAlone(s, p);
            && Shows(r, slot', now) && r.processes[p].phase.Finished?
            && r.compared == s.compared + if answer.Incorrect? || answer.TooMany? then 1 else 0
  {
  }

  // ---- Confirmations ----

  function Inserts(s: ConfirmRace.State, p: nat, n: nat): ConfirmRace.State {
    if n == 0 then s else ConfirmRace.Next(Inserts(s, p, n - 1), ConfirmRace.Insert(p))
  }

  /** Read, update, check, as many inserts as it takes, and commit. */
  function ConfirmerAlone(s: ConfirmRace.State, p: nat): ConfirmRace.State {
    var updated := ConfirmRace.Next(ConfirmRace.Next(s, ConfirmRace.Read(p)), ConfirmRace.Update(p));
    var checked := ConfirmRace.Next(updated, ConfirmRace.Check(p));
    ConfirmRace.Next(Inserts(checked, p, s.quantity), ConfirmRace.Commit(p))
  }

  lemma {:induction false} InsertsCount(s: ConfirmRace.State, p: nat, n: nat)
    requires p < |s.processes| && s.processes[p].phase == ConfirmRace.Minting(0) && n <= s.quantity
    ensures var inserted := if n > 0 && s.plan == Some(Database.Day) then s.quantity else n;
            Inserts(s, p, n) == ConfirmRace.Moved(s, p, ConfirmRace.Minting(inserted))
    decreases n
  {
    if n == 0 {
      assert s.processes[p := s.processes[p].(phase := ConfirmRace.Minting(0))] == s.processes;
    } else {
      InsertsCount(s, p, n - 1);
    }
  }

  /** An unconfirmed payment with nothing minted comes out confirmed, with all its rows, and unlocked. */
  lemma ConfirmerMints(s: ConfirmRace.State, p: nat)
    requires p < |s.processes| && s.processes[p].phase.Waiting? && s.lockedBy.None? && s.rows == 0
    requires ConfirmRace.Confirms(s.processes[p].caller)
    requires if s.processes[p].caller.Admin? then s.status.Pending? || s.status.AwaitingProvider?
             else !s.status.Confirmed?
    ensures var r := ConfirmerAlone(s, p);
            && r.status.Confirmed? && r.lockedBy.None? && p < |r.processes| && r.processes[p].phase.Done?
            && r.rows == if s.plan.Some? then s.quantity else 0
  {
    var updated := ConfirmRace.Next(ConfirmRace.Next(s, ConfirmRace.Read(p)), ConfirmRace.Update(p));
    var checked := ConfirmRace.Next(updated, ConfirmRace.Check(p));
    if s.plan.Some? {
      InsertsCount(checked, p, s.quantity);
    } else {
      SkipperInsertsNothing(checked, p, s.quantity);
    }
  }

  lemma {:induction false} SkipperInsertsNothing(s: ConfirmRace.State, p: nat, n: nat)
    requires p < |s.processes| && s.processes[p].phase.Skipping?
    ensures Inserts(s, p, n) == s
    decreases n
  {
    if n > 0 {
      SkipperInsertsNothing(s, p, n - 1);
    }
  }

  /** Every other decider writes its own status over one it acts on, leaves any other, and mints nothing. */
  lemma DeciderWrites(s: ConfirmRace.State, p: nat)
    requires p < |s.processes| && s.processes[p].phase.Waiting? && s.lockedBy.None?
    requires !ConfirmRace.Confirms(s.processes[p].caller)
    ensures var r := ConfirmRace.Next(ConfirmRace.Next(s, ConfirmRace.Read(p)), ConfirmRace.Write(p));
            && r.rows == s.rows && r.lockedBy.None?
            && r.status == match s.processes[p].caller
                 case BadWebhook(status) => if s.status.Confirmed? then s.status else status
                 case Rejection =>
                   if s.status.Pending? || s.status.AwaitingProvider? then Database.Rejected else s.status
                 case Poll(status) => if s.status.AwaitingProvider? then status else s.status
                 case Purchase => if s.status.Pending? then Database.AwaitingProvider else s.status
  {
  }

  // ---- Minting for one buyer ----

  function MintInserts(s: MintRaces.State, i: nat, n: nat): MintRaces.State {
    if n == 0 then s else MintRaces.Next(MintInserts(s, i, n - 1), MintRaces.Step(i, MintRaces.Insert))
  }

  function MintAlone(s: MintRaces.State, i: nat): MintRaces.State
    requires i < |s.orders|
  {
    var looked := MintRaces.Next(MintRaces.Next(s, MintRaces.Step(i, MintRaces.Check)),
                                 MintRaces.Step(i, MintRaces.LookForActive));
    var minting := MintRaces.Next(looked, MintRaces.Step(i, MintRaces.LookForQueued));
    MintRaces.Next(MintInserts(minting, i, s.orders[i].quantity), MintRaces.Step(i, MintRaces.Commit))
  }

  lemma {:induction false} MintInsertsCount(s: MintRaces.State, i: nat, n: nat)
    requires i < |s.orders| && n <= s.orders[i].quantity && !MintRaces.SomeoneHolds(s)
    requires exists chained :: s.orders[i].phase == MintRaces.Minting(chained, 0, false)
    requires s.active ==> s.orders[i].phase.chained
    ensures var chained := s.orders[i].phase.chained;
            MintInserts(s, i, n) == MintRaces.Moved(s, i, MintRaces.Minting(chained, n, !chained && n > 0))
    decreases n
  {
    if n == 0 {
      assert s.orders[i := s.orders[i].(phase := s.orders[i].phase)] == s.orders;
    } else {
      MintInsertsCount(s, i, n - 1);
    }
  }

  /** All the rows of an order are added: behind a chain all of them wait, otherwise the first runs. */
  lemma MinterMints(s: MintRaces.State, i: nat)
    requires i < |s.orders| && s.orders[i].phase.Idle? && s.orders[i].rows == 0 && s.orders[i].quantity > 0
    requires !MintRaces.SomeoneHolds(s)
    ensures var r, n := MintAlone(s, i), s.orders[i].quantity;
            && r.orders == s.orders[i := MintRaces.Order(n, n, MintRaces.Idle)] && r.expired == s.expired
            && (if s.active || s.queued > 0 then r.active == s.active && r.queued == s.queued + n
                else r.active && r.queued == s.queued + n - 1)
  {
    var looked := MintRaces.Next(MintRaces.Next(s, MintRaces.Step(i, MintRaces.Check)),
                                 MintRaces.Step(i, MintRaces.LookForActive));
    var minting := MintRaces.Next(looked, MintRaces.Step(i, MintRaces.LookForQueued));
    forall j | 0 <= j < |minting.orders|
      ensures !MintRaces.Holds(minting.orders[j].phase)
    {
      assert !MintRaces.Holds(s.orders[j].phase);
    }
    MintInsertsCount(minting, i, s.orders[i].quantity);
  }
}
