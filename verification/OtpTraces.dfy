/** How often a code can be guessed, over any run of sends and verifications for one number. */
module OtpTraces {
  import opened Wrappers
  import opened Redis
  import opened Otp

  datatype Op = SendOp(now: int, code: string) | VerifyOp(now: int, guess: string)

  ghost predicate Sorted(ops: seq<Op>) {
    forall i, j | 0 <= i <= j < |ops| :: ops[i].now <= ops[j].now
  }

  function Next(s: Slot, op: Op): Slot {
    match op
    case SendOp(now, code) => Send(s, code, now)
    case VerifyOp(now, guess) => Verify(s, guess, now).0
  }

  function After(s: Slot, ops: seq<Op>): Slot
    decreases |ops|
  {
    if ops == [] then s else After(Next(s, ops[0]), ops[1..])
  }

  /** Wrong guesses compared against the code now in the slot, until another is sent. */
  function WrongGuesses(s: Slot, ops: seq<Op>): nat
    decreases |ops|
  {
    if ops == [] || ops[0].SendOp? then 0
    else
      var (s', r) := Verify(s, ops[0].guess, ops[0].now);
      (if r.Incorrect? || r.TooMany? then 1 else 0) + WrongGuesses(s', ops[1..])
  }

  lemma {:induction false} CounterRests(s: Slot, ops: seq<Op>)
    requires Rested(s)
    ensures Rested(After(s, ops))
    decreases |ops|
  {
    if ops != [] {
      CounterRests(Next(s, ops[0]), ops[1..]);
    }
  }

  /** What a code expiring at `expiry` can still meet from time `now` on. */
  function Budget(s: Slot, expiry: int, now: int): int {
    if Failures(s, now) == 0 then MAX_OTP_ATTEMPTS
    else if s.attempts.value.deadline.Some? && s.attempts.value.deadline.value < expiry
      then 2 * MAX_OTP_ATTEMPTS - 1 - Failures(s, now)
    else MAX_OTP_ATTEMPTS - Failures(s, now)
  }

  /** At most two counter lives overlap the life of one code. */
  lemma {:induction false} GuessesWithinBudget(s: Slot, expiry: int, ops: seq<Op>)
    requires Rested(s) && Sorted(ops)
    requires s.code.Some? ==> s.code.value.deadline == Some(expiry)
    requires ops != [] ==> expiry - TTL_MS <= ops[0].now
    ensures WrongGuesses(s, ops) <= if ops == [] then 0 else Budget(s, expiry, ops[0].now)
    decreases |ops|
  {
    if ops != [] && ops[0].VerifyOp? {
      var s', rest := Next(s, ops[0]), ops[1..];
      GuessesWithinBudget(s', expiry, rest);
      if rest != [] && !Alive(s'.code, rest[0].now) {
        NoCodeNoGuess(s', rest);
      }
    }
  }

  lemma {:induction false} NoCodeNoGuess(s: Slot, ops: seq<Op>)
    requires Sorted(ops) && (ops != [] ==> !Alive(s.code, ops[0].now))
    ensures WrongGuesses(s, ops) == 0
    decreases |ops|
  {
    if ops != [] && ops[0].VerifyOp? {
      NoCodeNoGuess(s, ops[1..]);
    }
  }

  /** Any code meets at most 8 wrong guesses, and at most 5 when no failure is counted at issue. */
  lemma GuessBound(before: seq<Op>, code: string, now: int, after: seq<Op>)
    requires Sorted(before + [SendOp(now, code)] + after)
    ensures var s := After(NOTHING, before);
            && 0 <= Failures(s, now) < MAX_OTP_ATTEMPTS
            && WrongGuesses(Send(s, code, now), after) <= (if Failures(s, now) == 0 then 5
                else 9 - Failures(s, now)) <= 8
  {
    var s := After(NOTHING, before);
    CounterRests(NOTHING, before);
    var all := before + [SendOp(now, code)] + after;
    forall i, j | 0 <= i <= j < |after|
      ensures after[i].now <= after[j].now && now <= after[i].now
    {
      assert all[|before|] == SendOp(now, code);
      assert after[i] == all[|before| + 1 + i] && after[j] == all[|before| + 1 + j];
    }
    GuessesWithinBudget(Send(s, code, now), now + TTL_MS, after);
  }

  function Repeat(op: Op, n: nat): seq<Op> { seq(n, _ => op) }

  /**
   * A new code does not reset the counter: of the wrong guesses made at the
   * moment it is issued, it survives those that leave the total under five.
   */
  lemma FreshCodeSurvives(s: Slot, code: string, guess: string, now: int, n: nat)
    requires Rested(s) && code != "" && guess != code
    ensures Alive(After(Send(s, code, now), Repeat(VerifyOp(now, guess), n)).code, now)
            <==> Failures(s, now) + n < MAX_OTP_ATTEMPTS
  {
    WrongGuessesInARow(Send(s, code, now), guess, now, n);
  }

  lemma {:induction false} WrongGuessesInARow(s: Slot, guess: string, now: int, n: nat)
    requires Rested(s) && Alive(s.code, now) && s.code.value.value !in ["", guess]
    requires Alive(s.attempts, now) ==> now < s.attempts.value.deadline.value
    ensures var s' := After(s, Repeat(VerifyOp(now, guess), n));
            if Failures(s, now) + n < MAX_OTP_ATTEMPTS
            then s'.code == s.code && Failures(s', now) == Failures(s, now) + n && Rested(s')
                 && WrongGuesses(s, Repeat(VerifyOp(now, guess), n)) == n
                 && (Failures(s, now) > 0 ==> s'.attempts.value.deadline == s.attempts.value.deadline)
            else s'.code.None?
    decreases n
  {
    if n > 0 {
      var op := VerifyOp(now, guess);
      assert Repeat(op, n)[1..] == Repeat(op, n - 1);
      if Failures(s, now) + 1 < MAX_OTP_ATTEMPTS {
        WrongGuessesInARow(Next(s, op), guess, now, n - 1);
      } else {
        CodeStaysGone(Next(s, op), op, n - 1);
      }
    }
  }

  lemma {:induction false} CodeStaysGone(s: Slot, op: Op, n: nat)
    requires s.code.None? && op.VerifyOp?
    ensures After(s, Repeat(op, n)).code.None?
    decreases n
  {
    if n > 0 {
      assert Repeat(op, n)[1..] == Repeat(op, n - 1);
      CodeStaysGone(s, op, n - 1);
    }
  }

  /** The code in the slot was sent by ops[i] and not used up since. */
  ghost predicate IssuedBy(ops: seq<Op>, i: int, code: Entry<string>) {
    && 0 <= i < |ops| && ops[i] == SendOp(ops[i].now, code.value)
    && code.deadline == Some(ops[i].now + TTL_MS)
    && forall j | i < j < |ops| ::
         ops[j].VerifyOp? && (ops[j].guess == code.value != "" ==> ops[i].now + TTL_MS <= ops[j].now)
  }

  lemma Extend(s: Slot, ops: seq<Op>, op: Op)
    ensures After(s, ops + [op]) == Next(After(s, ops), op)
    decreases |ops|
  {
    if ops == [] {
    } else {
      assert (ops + [op])[1..] == ops[1..] + [op];
      Extend(Next(s, ops[0]), ops[1..], op);
    }
  }

  lemma {:induction false} CodeComesFromSend(ops: seq<Op>)
    ensures var c := After(NOTHING, ops).code; c.Some? ==> exists i :: IssuedBy(ops, i, c.value)
    decreases |ops|
  {
    if ops != [] {
      var init, last := ops[..|ops| - 1], ops[|ops| - 1];
      assert ops == init + [last];
      Extend(NOTHING, init, last);
      CodeComesFromSend(init);
      var c := After(NOTHING, ops).code;
      if c.Some? {
        if last.SendOp? {
          assert IssuedBy(ops, |ops| - 1, c.value);
        } else {
          var i :| IssuedBy(init, i, c.value);
          assert IssuedBy(ops, i, c.value);
        }
      }
    }
  }

  /** A code verifies only the number it was sent to, within ten minutes, as the last code sent, and once. */
  lemma VerifiedCodeWasSent(ops: seq<Op>, guess: string, now: int)
    requires Sorted(ops + [VerifyOp(now, guess)]) && Verify(After(NOTHING, ops), guess, now).1.Verified?
    ensures exists i ::
              && 0 <= i < |ops| && ops[i] == SendOp(ops[i].now, guess) && now < ops[i].now + TTL_MS
              && forall j | i < j < |ops| :: ops[j].VerifyOp? && ops[j].guess != guess
  {
    CodeComesFromSend(ops);
    var i :| IssuedBy(ops, i, After(NOTHING, ops).code.value);
    var all := ops + [VerifyOp(now, guess)];
    forall j | i < j < |ops|
      ensures ops[j].guess != guess
    {
      assert all[j] == ops[j] && all[|ops|].now == now;
    }
  }

  /** The bound of 8 is met: one failure, a new code just before that failure is forgotten, then eight guesses. */
  lemma EightGuesses()
    ensures var before := [SendOp(0, "111111"), VerifyOp(0, "000000")];
            var after := Repeat(VerifyOp(TTL_MS - 1, "000000"), 3) + Repeat(VerifyOp(TTL_MS, "000000"), 5);
            && Sorted(before + [SendOp(TTL_MS - 1, "222222")] + after)
            && WrongGuesses(Send(After(NOTHING, before), "222222", TTL_MS - 1), after) == 8
  {
    var wrong := VerifyOp(0, "000000");
    var first := Send(NOTHING, "111111", 0);
    assert [SendOp(0, "111111"), wrong][1..] == [wrong] && [wrong][1..] == [];
    assert After(first, [wrong]) == After(Next(first, wrong), []);
    var s := Send(Next(first, wrong), "222222", TTL_MS - 1);
    var early, late := VerifyOp(TTL_MS - 1, "000000"), VerifyOp(TTL_MS, "000000");
    WrongGuessesInARow(s, "000000", TTL_MS - 1, 3);
    var s' := After(s, Repeat(early, 3));
    Concatenate(s, Repeat(early, 3), Repeat(late, 5));
    assert Repeat(late, 5) == Repeat(late, 4) + [late];
    WrongGuessesInARow(s', "000000", TTL_MS, 4);
    Concatenate(s', Repeat(late, 4), [late]);
    var s'' := After(s', Repeat(late, 4));
    assert Verify(s'', "000000", TTL_MS).1.TooMany? && [late][1..] == [];
    assert WrongGuesses(s'', [late]) == 1 + WrongGuesses(Next(s'', late), []);
  }

  lemma {:induction false} Concatenate(s: Slot, xs: seq<Op>, ys: seq<Op>)
    requires forall op | op in xs :: op.VerifyOp?
    ensures WrongGuesses(s, xs + ys) == WrongGuesses(s, xs) + WrongGuesses(After(s, xs), ys)
    decreases |xs|
  {
    if xs == [] {
      assert xs + ys == ys;
    } else {
      assert xs[0] in xs && (xs + ys)[0] == xs[0];
      assert (xs + ys)[1..] == xs[1..] + ys;
      Concatenate(Next(s, xs[0]), xs[1..], ys);
    }
  }
}
