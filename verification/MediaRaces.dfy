/**
 * Any number of confirmations of uploads at once, statement by statement,
 * with rows deleted under their hands.
 *
 * A statement sees what was committed when it ran. A user's lock lasts until
 * the transaction ends; a deletion takes no lock.
 */
module MediaRaces {
  import opened Media

  datatype Phase =
    | Start
    | Locked                               // in its transaction, holding its user's lock
    | Counted(first: bool)                 // fewer than twenty items, and whether there were none
    | Numbered(first: bool, order: int)    // one past the last position in use
    | Inserted(item: Item)                 // written, not committed
    | Finished
    | Stopped                              // turned away or rolled back

  datatype Process = Process(user: UserId, upload: Upload, phase: Phase)

  // items holds the committed rows; locks the users whose lock is held, and by whom.
  datatype State = State(
    cdnBase: string,
    items: map<MediaId, Item>,
    nextId: MediaId,
    locks: map<UserId, nat>,
    processes: seq<Process>)

  datatype Statement = Lock | Count | Number | Insert | Commit | Rollback

  datatype Step = Step(p: nat, statement: Statement) | Delete(id: MediaId)

  predicate InTransaction(phase: Phase) { phase.Locked? || phase.Counted? || phase.Numbered? || phase.Inserted? }

  function Moved(s: State, p: nat, phase: Phase): State
    requires p < |s.processes|
  {
    s.(processes := s.processes[p := s.processes[p].(phase := phase)])
  }

  /** The transaction ends, and with it the lock. */
  function Ended(s: State, p: nat, phase: Phase): State
    requires p < |s.processes|
  {
    Moved(s, p, phase).(locks := s.locks - {s.processes[p].user})
  }

  /** One statement; one that does not fit its process's phase, or has to wait, changes nothing. */
  ghost function Next(s: State, step: Step): State {
    match step
    case Delete(id) => s.(items := s.items - {id})
    case Step(p, statement) => if p < |s.processes| then NextOf(s, p, statement) else s
  }

  ghost function NextOf(s: State, p: nat, statement: Statement): State
    requires p < |s.processes|
  {
    var Process(user, upload, phase) := s.processes[p];
    match statement
    case Lock =>
      if phase.Start? && user !in s.locks then Moved(s, p, Locked).(locks := s.locks[user := p]) else s
    case Count =>
      if !phase.Locked? then s
      else if |ItemsOf(s.items, user)| >= MAX_MEDIA_ITEMS then Ended(s, p, Stopped)
      else Moved(s, p, Counted(ItemsOf(s.items, user) == {}))
    case Number => if phase.Counted? then Moved(s, p, Numbered(phase.first, NextOrder(s.items, user))) else s
    case Insert =>
      if !phase.Numbered? then s
      else if !DurationAllowed(upload) then Ended(s, p, Stopped)
      else
        var isPrimary := phase.first && upload.kind.Photo?;
        Moved(s, p, Inserted(Item(user, upload, s.cdnBase + "/" + upload.key, isPrimary, phase.order)))
    case Commit =>
      if !phase.Inserted? then s
      else Ended(s, p, Finished).(items := s.items[s.nextId := phase.item], nextId := s.nextId + 1)
    case Rollback => if InTransaction(phase) then Ended(s, p, Stopped) else s
  }

  ghost function Run(s: State, steps: seq<Step>): State {
    if steps == [] then s else Next(Run(s, steps[..|steps| - 1]), steps[|steps| - 1])
  }

  /** A tidy gallery, nothing locked, everybody about to start. */
  ghost predicate Init(s: State) {
    && CapKept(s.items) && OrdersDistinct(s.items) && IdsUsed(s) && s.locks == map[]
    && forall p | 0 <= p < |s.processes| :: s.processes[p].phase.Start?
  }

  ghost predicate IdsUsed(s: State) { forall id | id in s.items :: id < s.nextId }

  ghost predicate LocksHeld(s: State) {
    forall p | 0 <= p < |s.processes| && InTransaction(s.processes[p].phase) ::
      s.processes[p].user in s.locks && s.locks[s.processes[p].user] == p
  }

  predicate HasCounted(phase: Phase) { phase.Counted? || phase.Numbered? || phase.Inserted? }

  /** Whoever has counted still has room for one more. */
  ghost predicate RoomLeft(s: State) {
    forall p | 0 <= p < |s.processes| && HasCounted(s.processes[p].phase) ::
      |ItemsOf(s.items, s.processes[p].user)| < MAX_MEDIA_ITEMS
  }

  predicate HasOrder(phase: Phase) { phase.Numbered? || phase.Inserted? }

  function OrderOf(phase: Phase): int
    requires HasOrder(phase)
  {
    if phase.Numbered? then phase.order else phase.item.sortOrder
  }

  ghost predicate Past(items: map<MediaId, Item>, user: UserId, order: int) {
    forall id | id in items && items[id].user == user :: items[id].sortOrder < order
  }

  /** Whoever has a position is past every one in use, and writes a row of its own user. */
  ghost predicate OrdersPast(s: State) {
    forall p | 0 <= p < |s.processes| && HasOrder(s.processes[p].phase) ::
      && Past(s.items, s.processes[p].user, OrderOf(s.processes[p].phase))
      && (s.processes[p].phase.Inserted? ==> s.processes[p].phase.item.user == s.processes[p].user)
  }

  ghost predicate Inv(s: State) {
    CapKept(s.items) && OrdersDistinct(s.items) && IdsUsed(s) && LocksHeld(s) && RoomLeft(s) && OrdersPast(s)
  }

  predicate Commits(s: State, step: Step) {
    step.Step? && step.p < |s.processes| && step.statement.Commit? && s.processes[step.p].phase.Inserted?
  }

  lemma StepKeepsLocks(s: State, step: Step)
    requires LocksHeld(s)
    ensures LocksHeld(Next(s, step))
  {
  }

  /** A row is added by nothing but a commit, and only to its own user's gallery. */
  lemma ItemsOnlyFromCommit(s: State, step: Step, items: map<MediaId, Item>)
    requires IdsUsed(s) && OrdersPast(s) && items == Next(s, step).items
    ensures IdsUsed(Next(s, step))
    ensures if Commits(s, step)
            then items == s.items[s.nextId := s.processes[step.p].phase.item]
            else forall id | id in items :: id in s.items && items[id] == s.items[id]
  {
  }

  lemma FewerItems(items: map<MediaId, Item>, items': map<MediaId, Item>, user: UserId)
    requires forall id | id in items' && items'[id].user == user :: id in items && items'[id] == items[id]
    ensures |ItemsOf(items', user)| <= |ItemsOf(items, user)|
    ensures forall order :: Past(items, user, order) ==> Past(items', user, order)
  {
    assert ItemsOf(items, user) == ItemsOf(items', user) + (ItemsOf(items, user) - ItemsOf(items', user));
  }

  lemma StepKeepsGallery(s: State, step: Step)
    requires Inv(s)
    ensures CapKept(Next(s, step).items) && OrdersDistinct(Next(s, step).items)
  {
    var items := Next(s, step).items;
    ItemsOnlyFromCommit(s, step, items);
    if Commits(s, step) {
      var item := s.processes[step.p].phase.item;
      assert Past(s.items, item.user, item.sortOrder);
      InsertKeepsCap(s.items, s.nextId, item);
    } else {
      forall user: UserId
        ensures Media.Fits(items, user)
      {
        assert Media.Fits(s.items, user);
        FewerItems(s.items, items, user);
      }
    }
  }

  /** While one transaction has its user's lock, nobody else adds to that user's gallery. */
  lemma OthersAddNothing(s: State, step: Step, p: nat)
    requires Inv(s) && p < |s.processes| && InTransaction(s.processes[p].phase)
    requires step.Step? ==> step.p != p
    ensures var items := Next(s, step).items;
            forall id | id in items && items[id].user == s.processes[p].user ::
                id in s.items && items[id] == s.items[id]
  {
    ItemsOnlyFromCommit(s, step, Next(s, step).items);
    if Commits(s, step) {
      assert s.locks[s.processes[step.p].user] == step.p && s.locks[s.processes[p].user] == p;
    }
  }

  lemma OwnStep(s: State, p: nat, statement: Statement)
    requires Inv(s) && p < |s.processes|
    ensures var s' := NextOf(s, p, statement);
            && (HasCounted(s'.processes[p].phase) ==> |ItemsOf(s'.items, s.processes[p].user)| < MAX_MEDIA_ITEMS)
            && (HasOrder(s'.processes[p].phase) ==>
                  && Past(s'.items, s.processes[p].user, OrderOf(s'.processes[p].phase))
                  && (s'.processes[p].phase.Inserted? ==> s'.processes[p].phase.item.user == s.processes[p].user))
  {
    if statement.Number? && s.processes[p].phase.Counted? {
      var user := s.processes[p].user;
      forall id | id in s.items && s.items[id].user == user
        ensures s.items[id].sortOrder < NextOrder(s.items, user)
      {
        NextOrderIsLast(s.items, user, id);
      }
    }
  }

  lemma SameOthers(s: State, step: Step, p: nat)
    requires p < |s.processes| && (step.Step? ==> step.p != p)
    ensures p < |Next(s, step).processes| && Next(s, step).processes[p] == s.processes[p]
  {
  }

  lemma SameUsers(s: State, step: Step)
    ensures |Next(s, step).processes| == |s.processes|
    ensures forall p | 0 <= p < |s.processes| :: Next(s, step).processes[p].user == s.processes[p].user
  {
  }

  lemma StepKeepsCounts(s: State, step: Step, p: nat)
    requires Inv(s) && p < |s.processes| && |Next(s, step).processes| == |s.processes|
    ensures var s', user := Next(s, step), s.processes[p].user;
            && (HasCounted(s'.processes[p].phase) ==> |ItemsOf(s'.items, user)| < MAX_MEDIA_ITEMS)
            && (HasOrder(s'.processes[p].phase) ==>
                  && Past(s'.items, user, OrderOf(s'.processes[p].phase))
                  && (s'.processes[p].phase.Inserted? ==> s'.processes[p].phase.item.user == user))
  {
    if step.Step? && step.p == p {
      OwnStep(s, p, step.statement);
    } else {
      SameOthers(s, step, p);
      if InTransaction(s.processes[p].phase) {
        OthersAddNothing(s, step, p);
        FewerItems(s.items, Next(s, step).items, s.processes[p].user);
      }
    }
  }

  lemma StepKeeps(s: State, step: Step)
    requires Inv(s)
    ensures Inv(Next(s, step))
  {
    var s' := Next(s, step);
    StepKeepsLocks(s, step);
    ItemsOnlyFromCommit(s, step, s'.items);
    StepKeepsGallery(s, step);
    SameUsers(s, step);
    forall p | 0 <= p < |s'.processes|
      ensures HasCounted(s'.processes[p].phase) ==> |ItemsOf(s'.items, s'.processes[p].user)| < MAX_MEDIA_ITEMS
      ensures HasOrder(s'.processes[p].phase) ==>
                && Past(s'.items, s'.processes[p].user, OrderOf(s'.processes[p].phase))
                && (s'.processes[p].phase.Inserted? ==> s'.processes[p].phase.item.user == s'.processes[p].user)
    {
      StepKeepsCounts(s, step, p);
    }
  }

  lemma {:induction false} RunKeeps(s: State, steps: seq<Step>)
    requires Init(s)
    ensures Inv(Run(s, steps))
    decreases |steps|
  {
    if steps != [] {
      RunKeeps(s, steps[..|steps| - 1]);
      StepKeeps(Run(s, steps[..|steps| - 1]), steps[|steps| - 1]);
    }
  }

  /** Whatever the interleaving, nobody has more than twenty items, and no two of theirs share a position. */
  lemma GalleriesStayTidy(s: State, steps: seq<Step>, user: UserId, i: MediaId, j: MediaId)
    requires Init(s) && i in ItemsOf(Run(s, steps).items, user) && j in ItemsOf(Run(s, steps).items, user)
    ensures |ItemsOf(Run(s, steps).items, user)| <= 20
    ensures Run(s, steps).items[i].sortOrder == Run(s, steps).items[j].sortOrder ==> i == j
  {
    RunKeeps(s, steps);
    assert Media.Fits(Run(s, steps).items, user);
  }
}
