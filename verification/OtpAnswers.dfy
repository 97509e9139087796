/** What a verification answers, told from the requests made before it and what they were answered. */
module OtpAnswers {
  import opened Wrappers
  import opened Redis
  import opened Otp
  import opened OtpTraces

  const TEN_MINUTES: int := 600_000

  /** What the j-th request, a verification, was answered. */
  function Said(ops: seq<Op>, j: nat): Outcome
    requires j < |ops| && ops[j].VerifyOp?
  {
    Verify(After(NOTHING, ops[..j]), ops[j].guess, ops[j].now).1
  }

  predicate SaidIncorrect(ops: seq<Op>, j: nat)
    requires j < |ops|
  {
    ops[j].VerifyOp? && Said(ops, j).Incorrect?
  }

  /** The j-th request used up the code or the guesses: either way the count starts afresh. */
  predicate Ends(ops: seq<Op>, j: nat)
    requires j < |ops|
  {
    ops[j].VerifyOp? && (Said(ops, j).Verified? || Said(ops, j).TooMany?)
  }

  /**
   * The i-th request sent the code in force: the last one, under ten minutes ago, not guessed and
   * not given up on since.
   */
  predicate Living(ops: seq<Op>, i: nat, now: int) {
    && i < |ops| && ops[i].SendOp? && ops[i].code != "" && now < ops[i].now + TEN_MINUTES
    && forall j | i < j < |ops| :: ops[j].VerifyOp? && ops[j].guess != ops[i].code && !Said(ops, j).TooMany?
  }

  // ---- Counting ----

  /** The ten minutes counted from the k-th request are over by the n-th, made now. */
  predicate Over(ops: seq<Op>, k: nat, n: nat, now: int)
    requires k < n <= |ops|
  {
    ops[k].now + TEN_MINUTES <= now || exists m | k < m < n :: Ends(ops, m)
  }

  /** The k-th request is a wrong guess from which ten minutes are counted: those counted before are over. */
  predicate Opens(ops: seq<Op>, k: nat)
    requires k < |ops|
    decreases k
  {
    SaidIncorrect(ops, k) && forall j | 0 <= j < k && Opens(ops, j) :: Over(ops, j, k, ops[k].now)
  }

  predicate Counting(ops: seq<Op>, k: nat, now: int) {
    k < |ops| && Opens(ops, k) && !Over(ops, k, |ops|, now)
  }

  /** Wrong guesses from the k-th request on. */
  function Wrong(ops: seq<Op>, k: nat): nat
    requires k <= |ops|
    decreases |ops|
  {
    if k == |ops| then 0
    else Wrong(ops[..|ops| - 1], k) + if SaidIncorrect(ops, |ops| - 1) then 1 else 0
  }

  /** Four wrong guesses are counted: the next is the fifth. */
  predicate Exhausted(ops: seq<Op>, now: int) {
    exists k | 0 <= k < |ops| :: Counting(ops, k, now) && Wrong(ops, k) >= 4
  }

  // ---- Prefixes ----

  lemma SaidBefore(ops: seq<Op>, op: Op, j: nat)
    requires j < |ops|
    ensures ops[j].VerifyOp? ==> Said(ops + [op], j) == Said(ops, j)
    ensures SaidIncorrect(ops + [op], j) == SaidIncorrect(ops, j) && Ends(ops + [op], j) == Ends(ops, j)
  {
    assert (ops + [op])[..j] == ops[..j];
  }

  lemma OverBefore(ops: seq<Op>, op: Op, k: nat, n: nat, now: int)
    requires k < n <= |ops|
    ensures Over(ops + [op], k, n, now) == Over(ops, k, n, now)
  {
    forall m | k < m < n
      ensures Ends(ops + [op], m) == Ends(ops, m)
    {
      SaidBefore(ops, op, m);
    }
  }

  lemma {:induction false} OpensBefore(ops: seq<Op>, op: Op, k: nat)
    requires k < |ops|
    ensures Opens(ops + [op], k) == Opens(ops, k)
    decreases k
  {
    SaidBefore(ops, op, k);
    forall j | 0 <= j < k
      ensures Opens(ops + [op], j) == Opens(ops, j) && Over(ops + [op], j, k, ops[k].now) == Over(ops, j, k, ops[k].now)
    {
      OpensBefore(ops, op, j);
      OverBefore(ops, op, j, k, ops[k].now);
    }
  }

  // ---- The counter ----

  /** The counter is the one the k-th request opened. */
  ghost predicate CountedFrom(ops: seq<Op>, k: nat, counter: Entry<int>) {
    && k < |ops| && Opens(ops, k)
    && (forall m | k < m < |ops| :: !Ends(ops, m)) && (forall m | k < m < |ops| :: !Opens(ops, m))
    && counter == Entry(Wrong(ops, k), Some(ops[k].now + TTL_MS))
  }

  ghost predicate CounterIs(ops: seq<Op>, counter: Option<Entry<int>>) {
    match counter
    case Some(c) => exists k: nat :: CountedFrom(ops, k, c)
    case None => forall k: nat | k < |ops| && Opens(ops, k) :: exists m | k < m < |ops| :: Ends(ops, m)
  }

  lemma {:induction false} CounterFollows(ops: seq<Op>)
    requires Sorted(ops)
    ensures CounterIs(ops, After(NOTHING, ops).attempts) && Rested(After(NOTHING, ops))
    decreases |ops|
  {
    CounterRests(NOTHING, ops);
    if ops != [] {
      var init, last := ops[..|ops| - 1], ops[|ops| - 1];
      assert ops == init + [last];
      CounterFollows(init);
      Extend(NOTHING, init, last);
      CounterSteps(init, last);
    }
  }

  lemma CounterSteps(ops: seq<Op>, op: Op)
    requires Sorted(ops + [op]) && Rested(After(NOTHING, ops))
    requires CounterIs(ops, After(NOTHING, ops).attempts)
    ensures CounterIs(ops + [op], Next(After(NOTHING, ops), op).attempts)
  {
    var s, more := After(NOTHING, ops), ops + [op];
    SaidLast(ops, op);
    if Ends(more, |ops|) {
      assert Next(s, op) == NOTHING;
    } else if SaidIncorrect(more, |ops|) && Failures(s, op.now) == 0 {
      OpensNow(ops, op);
      assert CountedFrom(more, |ops|, Next(s, op).attempts.value);
    } else if s.attempts.Some? {
      var k: nat :| CountedFrom(ops, k, s.attempts.value);
      StillCounted(ops, op, k);
    } else {
      forall k: nat | k < |more| && Opens(more, k)
        ensures exists m | k < m < |more| :: Ends(more, m)
      {
        OpensBefore(ops, op, k);
        var m :| k < m < |ops| && Ends(ops, m);
        SaidBefore(ops, op, m);
      }
    }
  }

  lemma SaidLast(ops: seq<Op>, op: Op)
    ensures op.VerifyOp? ==> Said(ops + [op], |ops|) == Verify(After(NOTHING, ops), op.guess, op.now).1
  {
    assert (ops + [op])[..|ops|] == ops;
  }

  /** A wrong guess with nothing counted opens a count. */
  lemma OpensNow(ops: seq<Op>, op: Op)
    requires Sorted(ops + [op]) && CounterIs(ops, After(NOTHING, ops).attempts) && Rested(After(NOTHING, ops))
    requires SaidIncorrect(ops + [op], |ops|) && Failures(After(NOTHING, ops), op.now) == 0
    ensures Opens(ops + [op], |ops|) && Wrong(ops + [op], |ops|) == 1
  {
    var s, more := After(NOTHING, ops), ops + [op];
    assert more[..|more| - 1] == ops;
    forall k | 0 <= k < |ops| && Opens(more, k)
      ensures Over(more, k, |ops|, op.now)
    {
      OpensBefore(ops, op, k);
      OverBefore(ops, op, k, |ops|, op.now);
      NothingCounting(ops, op, k);
    }
  }

  lemma NothingCounting(ops: seq<Op>, op: Op, k: nat)
    requires Sorted(ops + [op]) && CounterIs(ops, After(NOTHING, ops).attempts) && Rested(After(NOTHING, ops))
    requires Failures(After(NOTHING, ops), op.now) == 0 && k < |ops| && Opens(ops, k)
    ensures Over(ops, k, |ops|, op.now)
  {
    var s, all := After(NOTHING, ops), ops + [op];
    if s.attempts.Some? {
      var last: nat :| CountedFrom(ops, last, s.attempts.value);
      assert all[|ops|].now == op.now && all[last].now == ops[last].now;
      assert ops[last].now + TTL_MS <= op.now;
      if k < last {
        assert Over(ops, k, last, ops[last].now);
      }
    }
  }

  /** A request that neither ends the count nor opens one leaves it, one higher for a wrong guess. */
  lemma StillCounted(ops: seq<Op>, op: Op, k: nat)
    requires After(NOTHING, ops).attempts.Some?
    requires CountedFrom(ops, k, After(NOTHING, ops).attempts.value)
    requires !Ends(ops + [op], |ops|)
    requires !(SaidIncorrect(ops + [op], |ops|) && Failures(After(NOTHING, ops), op.now) == 0)
    ensures Next(After(NOTHING, ops), op).attempts.Some?
    ensures CountedFrom(ops + [op], k, Next(After(NOTHING, ops), op).attempts.value)
  {
    CounterGoesOn(ops, op);
    StillFrom(ops, op, k, After(NOTHING, ops).attempts.value);
  }

  lemma StillFrom(ops: seq<Op>, op: Op, k: nat, counter: Entry<int>)
    requires CountedFrom(ops, k, counter) && !Ends(ops + [op], |ops|)
    requires SaidIncorrect(ops + [op], |ops|) ==> Alive(Some(counter), op.now)
    ensures CountedFrom(ops + [op], k,
                        counter.(value := counter.value + if SaidIncorrect(ops + [op], |ops|) then 1 else 0))
  {
    OpensBefore(ops, op, k);
    OneMoreWrong(ops, op, k);
    if SaidIncorrect(ops + [op], |ops|) {
      NotOver(ops, op, k, counter);
    }
    NoneSince(ops, op, k, counter);
  }

  lemma CounterGoesOn(ops: seq<Op>, op: Op)
    requires After(NOTHING, ops).attempts.Some? && !Ends(ops + [op], |ops|)
    requires !(SaidIncorrect(ops + [op], |ops|) && Failures(After(NOTHING, ops), op.now) == 0)
    ensures var counter, next := After(NOTHING, ops).attempts.value, Next(After(NOTHING, ops), op).attempts;
            && next == Some(Entry(counter.value + (if SaidIncorrect(ops + [op], |ops|) then 1 else 0),
                counter.deadline))
            && (SaidIncorrect(ops + [op], |ops|) ==> Alive(Some(counter), op.now))
  {
    SaidLast(ops, op);
  }

  lemma OneMoreWrong(ops: seq<Op>, op: Op, k: nat)
    requires k <= |ops|
    ensures Wrong(ops + [op], k) == Wrong(ops, k) + if SaidIncorrect(ops + [op], |ops|) then 1 else 0
  {
    assert (ops + [op])[..|ops|] == ops;
  }

  lemma NoneSince(ops: seq<Op>, op: Op, k: nat, counter: Entry<int>)
    requires CountedFrom(ops, k, counter) && !Ends(ops + [op], |ops|) && !Opens(ops + [op], |ops|)
    ensures forall m | k < m <= |ops| :: !Ends(ops + [op], m)
    ensures forall m | k < m <= |ops| :: !Opens(ops + [op], m)
  {
    forall m | k < m < |ops|
      ensures !Ends(ops + [op], m)
    {
      SaidBefore(ops, op, m);
    }
    forall m | k < m < |ops|
      ensures !Opens(ops + [op], m)
    {
      OpensBefore(ops, op, m);
    }
  }

  lemma NotOver(ops: seq<Op>, op: Op, k: nat, counter: Entry<int>)
    requires CountedFrom(ops, k, counter) && op.now < counter.deadline.value
    ensures Opens(ops + [op], k) && !Over(ops + [op], k, |ops|, op.now) && !Opens(ops + [op], |ops|)
  {
    OpensBefore(ops, op, k);
    OverBefore(ops, op, k, |ops|, op.now);
  }

  /** The failures counted are the wrong guesses since the count was opened. */
  lemma FailuresAre(ops: seq<Op>, op: Op)
    requires Sorted(ops + [op])
    ensures forall k: nat | Counting(ops, k, op.now) :: Failures(After(NOTHING, ops), op.now) == Wrong(ops, k)
    ensures (forall k: nat :: !Counting(ops, k, op.now)) ==> Failures(After(NOTHING, ops), op.now) == 0
  {
    var s := After(NOTHING, ops);
    assert forall i | 0 <= i < |ops| :: ops[i] == (ops + [op])[i];
    CounterFollows(ops);
    if s.attempts.Some? {
      var last: nat :| CountedFrom(ops, last, s.attempts.value);
      assert Over(ops, last, |ops|, op.now) <==> ops[last].now + TTL_MS <= op.now;
      assert (ops + [op])[last].now <= (ops + [op])[|ops|].now;
      EarlierAreOver(ops, last, op.now);
      assert Alive(s.attempts, op.now) ==> Counting(ops, last, op.now);
    }
  }

  lemma EarlierAreOver(ops: seq<Op>, last: nat, now: int)
    requires last < |ops| && Opens(ops, last) && ops[last].now <= now
    ensures forall k | 0 <= k < last && Opens(ops, k) :: Over(ops, k, |ops|, now)
  {
    forall k | 0 <= k < last && Opens(ops, k)
      ensures Over(ops, k, |ops|, now)
    {
      assert Over(ops, k, last, ops[last].now);
    }
  }

  // ---- The code ----

  lemma {:induction false} CodeStays(ops: seq<Op>, i: nat)
    requires i < |ops| && ops[i].SendOp?
    requires forall j | i < j < |ops| :: ops[j].VerifyOp? && ops[j].guess != ops[i].code && !Said(ops, j).TooMany?
    ensures After(NOTHING, ops).code == Some(Entry(ops[i].code, Some(ops[i].now + TTL_MS)))
    decreases |ops|
  {
    var init, last := ops[..|ops| - 1], ops[|ops| - 1];
    assert ops == init + [last];
    Extend(NOTHING, init, last);
    if i < |init| {
      forall j | i < j < |init|
        ensures Said(init, j) == Said(ops, j)
      {
        SaidBefore(init, last, j);
      }
      CodeStays(init, i);
      SaidLast(init, last);
    }
  }

  /** A code that is still there was the last one sent, and nothing since has ended it. */
  lemma {:induction false} CodeIsLiving(ops: seq<Op>, now: int) returns (i: nat)
    requires Sorted(ops) && (ops != [] ==> ops[|ops| - 1].now <= now)
    requires Alive(After(NOTHING, ops).code, now) && After(NOTHING, ops).code.value.value != ""
    ensures Living(ops, i, now) && After(NOTHING, ops).code.value.value == ops[i].code
    decreases |ops|
  {
    var init, last := ops[..|ops| - 1], ops[|ops| - 1];
    assert ops == init + [last];
    Extend(NOTHING, init, last);
    if last.SendOp? {
      i := |init|;
    } else {
      i := CodeIsLiving(init, now);
      CodeStays(init, i);
      SaidLast(init, last);
      assert ops[i].now <= last.now;
      forall j | i < j < |ops|
        ensures ops[j].VerifyOp? && ops[j].guess != ops[i].code && !Said(ops, j).TooMany?
      {
        if j < |init| {
          SaidBefore(init, last, j);
        }
      }
    }
  }

  /**
   * Every answer, from the requests alone: nothing to compare with unless a code is living; the
   * living code verifies; any other guess is wrong, and one too many if four are counted already.
   */
  lemma AnswersAre(ops: seq<Op>, guess: string, now: int)
    requires Sorted(ops + [VerifyOp(now, guess)])
    ensures var r := Verify(After(NOTHING, ops), guess, now).1;
            && (r.NoCode? <==> forall i: nat :: !Living(ops, i, now))
            && forall i: nat | Living(ops, i, now) ::
                 r == if guess == ops[i].code then Verified else if Exhausted(ops, now) then TooMany else Incorrect
  {
    var s, op := After(NOTHING, ops), VerifyOp(now, guess);
    assert forall i | 0 <= i < |ops| :: ops[i] == (ops + [op])[i];
    assert ops != [] ==> (ops + [op])[|ops| - 1].now <= (ops + [op])[|ops|].now;
    FailuresAre(ops, op);
    forall i: nat | Living(ops, i, now)
      ensures s.code == Some(Entry(ops[i].code, Some(ops[i].now + TTL_MS)))
    {
      CodeStays(ops, i);
    }
    if Alive(s.code, now) && s.code.value.value != "" {
      var i := CodeIsLiving(ops, now);
    }
    assert Failures(s, now) >= 4 <==> Exhausted(ops, now);
  }

  /**
   * The right code verifies: a guess succeeds exactly when it is the last code sent, less than ten
   * minutes ago, nobody has guessed it since and no guess since was one too many.
   */
  lemma RightCodeVerifies(ops: seq<Op>, guess: string, now: int)
    requires Sorted(ops + [VerifyOp(now, guess)])
    ensures Verify(After(NOTHING, ops), guess, now).1.Verified? <==>
            && guess != ""
            && exists i ::
                 && 0 <= i < |ops| && ops[i] == SendOp(ops[i].now, guess) && now < ops[i].now + TEN_MINUTES
                 && forall j | i < j < |ops| :: ops[j].VerifyOp? && ops[j].guess != guess && !Said(ops, j).TooMany?
  {
    AnswersAre(ops, guess, now);
    if i: nat :| i < |ops| && ops[i] == SendOp(ops[i].now, guess) && Living(ops, i, now) {
      assert ops[i] == SendOp(ops[i].now, guess);
    }
  }

  /**
   * Of the wrong guesses made at the moment a code is issued, it survives, and then verifies, those
   * that leave the failures counted under five.
   */
  lemma FreshCodeVerifies(s: Slot, code: string, guess: string, now: int, n: nat)
    requires Rested(s) && code != "" && guess != code
    ensures Verify(After(Send(s, code, now), Repeat(VerifyOp(now, guess), n)), code, now).1.Verified?
            <==> Failures(s, now) + n < 5
  {
    WrongGuessesInARow(Send(s, code, now), guess, now, n);
  }
}
