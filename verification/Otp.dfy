/** One-time codes: ten minutes each, five wrong guesses per counter life. */
module Otp {
  import opened Wrappers
  import opened Redis

  const TTL_MS: int := 600_000
  const MAX_OTP_ATTEMPTS: int := 5

  // Everything Redis holds for one phone number.
  datatype Slot = Slot(code: Option<Entry<string>>, attempts: Option<Entry<int>>)

  const NOTHING := Slot(None, None)

  datatype Outcome = NoCode | Incorrect | TooMany | Verified

  datatype Account = Account(phone: Option<string>, phoneVerified: bool)

  function Send(s: Slot, code: string, now: int): Slot {
    s.(code := Some(Entry(code, Some(now + TTL_MS))))
  }

  /** Failures still counted against the number. */
  function Failures(s: Slot, now: int): int {
    if Alive(s.attempts, now) then s.attempts.value.value else 0
  }

  function Verify(s: Slot, guess: string, now: int): (Slot, Outcome) {
    if !Alive(s.code, now) || s.code.value.value == "" then (s, NoCode)
    else if s.code.value.value == guess then (NOTHING, Verified)
    else if Failures(s, now) + 1 >= MAX_OTP_ATTEMPTS then (NOTHING, TooMany)
    else
      var deadline := if Failures(s, now) == 0 then Some(now + TTL_MS) else s.attempts.value.deadline;
      (s.(attempts := Some(Entry(Failures(s, now) + 1, deadline))), Incorrect)
  }

  class RedisService {
    var codes: map<string, Entry<string>>
    var attempts: map<string, Entry<int>>

    constructor ()
      ensures codes == map[] && attempts == map[]
    {
      codes, attempts := map[], map[];
    }

    ghost function SlotOf(phone: string): Slot
      reads this
    {
      Slot(Lookup(codes, phone), Lookup(attempts, phone))
    }

    method SetOtp(phone: string, code: string, now: int)
      modifies this`codes
      ensures codes == old(codes)[phone := Entry(code, Some(now + TTL_MS))]
    {
      codes := codes[phone := Entry(code, Some(now + TTL_MS))];
    }

    method GetOtp(phone: string, now: int) returns (code: Option<string>)
      ensures code == if Alive(Lookup(codes, phone), now) then Some(codes[phone].value) else None
    {
      code := if Alive(Lookup(codes, phone), now) then Some(codes[phone].value) else None;
    }

    method DeleteOtp(phone: string)
      modifies this
      ensures codes == old(codes) - {phone} && attempts == old(attempts) - {phone}
    {
      codes := codes - {phone};
      attempts := attempts - {phone};
    }

    // The TTL is set on the first failure only.
    method RecordOtpFailure(phone: string, now: int) returns (n: int)
      modifies this`attempts
      ensures n == Incr(Lookup(old(attempts), phone), now).value
      ensures var e := Incr(Lookup(old(attempts), phone), now);
              attempts == old(attempts)[phone := if n == 1 then e.(deadline := Some(now + TTL_MS)) else e]
    {
      attempts := attempts[phone := Incr(Lookup(attempts, phone), now)];
      n := attempts[phone].value;
      if n == 1 {
        attempts := Store(attempts, phone, PExpire(Lookup(attempts, phone), TTL_MS, now));
      }
    }
  }

  class AuthService {
    const redis: RedisService
    var accounts: map<nat, Account>

    constructor (redis: RedisService)
      ensures this.redis == redis && accounts == map[]
    {
      this.redis := redis;
      accounts := map[];
    }

    // Every failure counter has a TTL and has been incremented at least once.
    ghost predicate Valid()
      reads this, redis
    {
      forall phone :: Rested(redis.SlotOf(phone))
    }

    method SendOtp(phone: string, code: string, now: int)
      requires Valid()
      modifies redis
      ensures Valid() && redis.SlotOf(phone) == Send(old(redis.SlotOf(phone)), code, now)
      ensures forall other :: other != phone ==> redis.SlotOf(other) == old(redis.SlotOf(other))
    {
      redis.SetOtp(phone, code, now);
      assert forall other :: other != phone ==> redis.SlotOf(other) == old(redis.SlotOf(other));
    }

    method VerifyOtp(user: nat, phone: string, code: string, now: int) returns (r: Outcome)
      requires Valid()
      modifies this, redis
      ensures Valid() && (redis.SlotOf(phone), r) == Verify(old(redis.SlotOf(phone)), code, now)
      ensures forall other :: other != phone ==> redis.SlotOf(other) == old(redis.SlotOf(other))
      ensures accounts == if r.Verified? && user in old(accounts) then old(accounts)[user := Account(Some(phone), true)]
                          else old(accounts)
    {
      ghost var before := redis.SlotOf(phone);
      assert Rested(before);
      var stored := redis.GetOtp(phone, now);
      if stored.None? || stored.value == "" {
        return NoCode;
      }
      if stored.value != code {
        var attempts := redis.RecordOtpFailure(phone, now);
        if attempts >= MAX_OTP_ATTEMPTS {
          redis.DeleteOtp(phone);
          r := TooMany;
        } else {
          r := Incorrect;
        }
        assert redis.SlotOf(phone) == Verify(before, code, now).0;
        assert forall other :: other != phone ==> redis.SlotOf(other) == old(redis.SlotOf(other));
        return;
      }
      if user in accounts {
        accounts := accounts[user := accounts[user].(phone := Some(phone))];
        accounts := accounts[user := accounts[user].(phoneVerified := true)];
      }
      redis.DeleteOtp(phone);
      r := Verified;
      assert forall other :: other != phone ==> redis.SlotOf(other) == old(redis.SlotOf(other));
    }
  }

  /** Between calls a failure counter stands between 1 and 4 and will expire. */
  ghost predicate Rested(s: Slot) {
    s.attempts.Some? ==> 1 <= s.attempts.value.value < MAX_OTP_ATTEMPTS && s.attempts.value.deadline.Some?
  }
}
