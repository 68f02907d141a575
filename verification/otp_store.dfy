/**
 * The in-memory one-time-passcode store: a map from phone number to the current
 * passcode, its expiry instant and the count of wrong guesses made against it.
 *
 * The pure functions `Issued`, `Verify` and `CanRequest` say what one call does to
 * the table; the class `Store` holds the process-wide table and its methods change
 * it in place, each proved to do what its function says. The clock is the
 * parameter `now`, in milliseconds.
 */
module OtpStore {
  import Decimal

  /** Five minutes, in milliseconds. */
  const OtpExpiryMs: int := 5 * 60 * 1000
  const MaxAttempts: nat := 3

  datatype Entry = Entry(otp: string, expiresAt: int, attempts: nat)

  type Table = map<string, Entry>

  /** What `verifyOtp` returns to its caller. */
  datatype VerifyResult = VerifyResult(success: bool, message: string)

  /** The result of one verification together with the table it leaves behind. */
  datatype Step = Step(result: VerifyResult, table: Table)

  const NoOtpMessage := "No OTP found for this number or it has expired. Please request a new one."
  const ExpiredMessage := "OTP has expired. Please request a new one."
  const TooManyAttemptsMessage := "Too many incorrect OTP attempts. Please request a new one."
  const VerifiedMessage := "OTP verified successfully."

  const InvalidOtpPrefix := "Invalid OTP. "
  const RemainingSuffix := " attempts remaining."

  /** The wrong-code message: the number of attempts left, in decimal, between fixed words. */
  function InvalidOtpMessage(remaining: nat): (m: string)
    ensures |m| > |InvalidOtpPrefix| + |RemainingSuffix|
    ensures m[..|InvalidOtpPrefix|] == InvalidOtpPrefix && m[|m| - |RemainingSuffix|..] == RemainingSuffix
    ensures var count := m[|InvalidOtpPrefix|..|m| - |RemainingSuffix|];
      Decimal.AllDigits(count) && Decimal.ToNat(count) == remaining
  {
    var digits := Decimal.FromNat(remaining);
    Decimal.ToNatFromNat(remaining);
    var m := InvalidOtpPrefix + digits + RemainingSuffix;
    assert m[|InvalidOtpPrefix|..|m| - |RemainingSuffix|] == digits;
    m
  }

  /** The store's invariant: no entry has been guessed at more than `MaxAttempts` times. */
  predicate AttemptsBounded(t: Table) {
    forall p :: p in t ==> t[p].attempts <= MaxAttempts
  }

  /** Entries for numbers other than `phone` are the same in both tables. */
  ghost predicate OthersUnchanged(t: Table, t': Table, phone: string) {
    (forall q :: q != phone ==> (q in t <==> q in t')) &&
    (forall q :: q != phone && q in t ==> t'[q] == t[q])
  }

  /** The table after `storeOtp(phone, otp)` at instant `now`. */
  function Issued(t: Table, phone: string, otp: string, now: int): (t': Table)
    ensures phone in t' && t'[phone] == Entry(otp, now + OtpExpiryMs, 0)
    ensures OthersUnchanged(t, t', phone)
  {
    t[phone := Entry(otp, now + OtpExpiryMs, 0)]
  }

  /** One call of `verifyOtp(phone, code)` at instant `now`. */
  function Verify(t: Table, phone: string, code: string, now: int): (s: Step)
    ensures OthersUnchanged(t, s.table, phone)
  {
    if phone !in t then
      Step(VerifyResult(false, NoOtpMessage), t)
    else
      var entry := t[phone];
      if now > entry.expiresAt then
        Step(VerifyResult(false, ExpiredMessage), t - {phone})
      else if entry.attempts >= MaxAttempts then
        Step(VerifyResult(false, TooManyAttemptsMessage), t - {phone})
      else if entry.otp == code then
        Step(VerifyResult(true, VerifiedMessage), t - {phone})
      else
        var updated := entry.(attempts := entry.attempts + 1);
        Step(VerifyResult(false, InvalidOtpMessage(MaxAttempts - updated.attempts)), t[phone := updated])
  }

  /** One call of `canRequestOtp(phone)` at instant `now`: the answer and the table after it. */
  function CanRequest(t: Table, phone: string, now: int): (r: (bool, Table))
    ensures OthersUnchanged(t, r.1, phone)
  {
    if phone !in t then (true, t)
    else if now > t[phone].expiresAt then (true, t - {phone})
    else (false, t)
  }

  /** A call on the store, carrying the instant it is made at. */
  datatype Call =
    | StoreCall(phone: string, otp: string, now: int)
    | VerifyCall(phone: string, code: string, now: int)
    | CanRequestCall(phone: string, now: int)

  /** The table after one call. */
  function Apply(t: Table, call: Call): Table {
    match call
    case StoreCall(p, otp, now) => Issued(t, p, otp, now)
    case VerifyCall(p, code, now) => Verify(t, p, code, now).table
    case CanRequestCall(p, now) => CanRequest(t, p, now).1
  }

  /** The table after a sequence of calls, made one after another. */
  function Replay(t: Table, calls: seq<Call>): Table
    decreases |calls|
  {
    if calls == [] then t else Replay(Apply(t, calls[0]), calls[1..])
  }

  // ---------------------------------------------------------------------------
  // The five outcomes of a verification, one lemma each.

  /** No entry: the call fails and the table is left as it was. */
  lemma VerifyWithoutEntry(t: Table, phone: string, code: string, now: int)
    requires phone !in t
    ensures Verify(t, phone, code, now) == Step(VerifyResult(false, NoOtpMessage), t)
  {
  }

  /**
   * An entry whose expiry instant has passed is deleted and the call fails, whatever
   * the code and the attempt count; expiry is looked at before the attempts.
   */
  lemma VerifyExpired(t: Table, phone: string, code: string, now: int)
    requires phone in t && now > t[phone].expiresAt
    ensures Verify(t, phone, code, now) == Step(VerifyResult(false, ExpiredMessage), t - {phone})
  {
  }

  /** At the expiry instant itself the entry is still live. */
  lemma LiveAtExpiryInstant(t: Table, phone: string, code: string)
    requires phone in t && t[phone].attempts < MaxAttempts && t[phone].otp == code
    ensures Verify(t, phone, code, t[phone].expiresAt).result.success
  {
  }

  /** A live entry guessed at three times is deleted and the call fails, even with the right code. */
  lemma VerifyExhausted(t: Table, phone: string, code: string, now: int)
    requires phone in t && now <= t[phone].expiresAt && t[phone].attempts >= MaxAttempts
    ensures Verify(t, phone, code, now) == Step(VerifyResult(false, TooManyAttemptsMessage), t - {phone})
  {
  }

  /** The right code on a live entry succeeds and uses the entry up. */
  lemma VerifyMatch(t: Table, phone: string, now: int)
    requires phone in t && now <= t[phone].expiresAt && t[phone].attempts < MaxAttempts
    ensures Verify(t, phone, t[phone].otp, now) == Step(VerifyResult(true, VerifiedMessage), t - {phone})
  {
  }

  /**
   * A wrong code on a live entry adds exactly one attempt, keeps the code and the
   * expiry instant, and reports how many attempts are left.
   */
  lemma VerifyWrongCode(t: Table, phone: string, code: string, now: int)
    requires phone in t && now <= t[phone].expiresAt && t[phone].attempts < MaxAttempts
    requires code != t[phone].otp
    ensures var s := Verify(t, phone, code, now);
      !s.result.success &&
      phone in s.table &&
      s.table[phone] == t[phone].(attempts := t[phone].attempts + 1) &&
      s.result.message == InvalidOtpMessage(MaxAttempts - 1 - t[phone].attempts)
  {
  }

  /** A verification succeeds exactly when a live, not exhausted entry holds the submitted code. */
  lemma VerifySucceedsIff(t: Table, phone: string, code: string, now: int)
    ensures Verify(t, phone, code, now).result.success <==>
      phone in t && now <= t[phone].expiresAt && t[phone].attempts < MaxAttempts && t[phone].otp == code
  {
  }

  /** Every outcome but a wrong code removes the entry; a wrong code keeps it. */
  lemma VerifyTerminalOutcomes(t: Table, phone: string, code: string, now: int)
    requires phone in t
    ensures var s := Verify(t, phone, code, now);
      phone in s.table <==> (now <= t[phone].expiresAt && t[phone].attempts < MaxAttempts && t[phone].otp != code)
  {
  }

  // ---------------------------------------------------------------------------
  // The attempt bound.

  lemma IssuedKeepsBound(t: Table, phone: string, otp: string, now: int)
    requires AttemptsBounded(t)
    ensures AttemptsBounded(Issued(t, phone, otp, now))
  {
  }

  /** Attempts are only added while below the maximum, so the bound survives every verification. */
  lemma VerifyKeepsBound(t: Table, phone: string, code: string, now: int)
    requires AttemptsBounded(t)
    ensures AttemptsBounded(Verify(t, phone, code, now).table)
  {
  }

  lemma CanRequestKeepsBound(t: Table, phone: string, now: int)
    requires AttemptsBounded(t)
    ensures AttemptsBounded(CanRequest(t, phone, now).1)
  {
  }

  lemma ApplyKeepsBound(t: Table, call: Call)
    requires AttemptsBounded(t)
    ensures AttemptsBounded(Apply(t, call))
  {
    match call
    case StoreCall(p, otp, now) => IssuedKeepsBound(t, p, otp, now);
    case VerifyCall(p, code, now) => VerifyKeepsBound(t, p, code, now);
    case CanRequestCall(p, now) => CanRequestKeepsBound(t, p, now);
  }

  /** Whatever calls are made, in whatever order, no entry ever holds more than three attempts. */
  lemma {:induction false} ReplayKeepsBound(t: Table, calls: seq<Call>)
    requires AttemptsBounded(t)
    ensures AttemptsBounded(Replay(t, calls))
    decreases |calls|
  {
    if calls != [] {
      ApplyKeepsBound(t, calls[0]);
      ReplayKeepsBound(Apply(t, calls[0]), calls[1..]);
    }
  }

  // ---------------------------------------------------------------------------
  // `canRequestOtp`.

  /**
   * Requesting is allowed with no entry or an expired one (which is deleted on the
   * way); a live entry refuses and is left untouched.
   */
  lemma CanRequestCases(t: Table, phone: string, now: int)
    ensures phone !in t ==> CanRequest(t, phone, now) == (true, t)
    ensures phone in t && now > t[phone].expiresAt ==> CanRequest(t, phone, now) == (true, t - {phone})
    ensures phone in t && now <= t[phone].expiresAt ==> CanRequest(t, phone, now) == (false, t)
  {
  }

  // ---------------------------------------------------------------------------
  // Lifecycles of several calls.

  /**
   * A freshly issued code verifies once, within five minutes of issuance; an immediate
   * second verification with the same code finds no entry.
   */
  lemma IssueThenVerifyTwice(t: Table, phone: string, otp: string, issuedAt: int, now: int, later: int)
    requires issuedAt <= now <= issuedAt + OtpExpiryMs
    ensures var first := Verify(Issued(t, phone, otp, issuedAt), phone, otp, now);
      first.result == VerifyResult(true, VerifiedMessage) &&
      Verify(first.table, phone, otp, later).result == VerifyResult(false, NoOtpMessage)
  {
  }

  /**
   * Three wrong codes report 2, 1 and 0 attempts remaining; the fourth call fails as
   * exhausted even with the right code, and the entry is gone afterwards.
   */
  lemma {:induction false} ThreeWrongCodesExhaust(t: Table, phone: string, otp: string, wrong: string,
                                                  issuedAt: int, now: int)
    requires wrong != otp && issuedAt <= now <= issuedAt + OtpExpiryMs
    ensures var s0 := Issued(t, phone, otp, issuedAt);
      var s1 := Verify(s0, phone, wrong, now);
      var s2 := Verify(s1.table, phone, wrong, now);
      var s3 := Verify(s2.table, phone, wrong, now);
      var s4 := Verify(s3.table, phone, otp, now);
      s1.result == VerifyResult(false, InvalidOtpMessage(2)) &&
      s2.result == VerifyResult(false, InvalidOtpMessage(1)) &&
      s3.result == VerifyResult(false, InvalidOtpMessage(0)) &&
      s4.result == VerifyResult(false, TooManyAttemptsMessage) &&
      phone !in s4.table
  {
    var s0 := Issued(t, phone, otp, issuedAt);
    var s1 := Verify(s0, phone, wrong, now);
    VerifyWrongCode(s0, phone, wrong, now);
    var s2 := Verify(s1.table, phone, wrong, now);
    VerifyWrongCode(s1.table, phone, wrong, now);
    var s3 := Verify(s2.table, phone, wrong, now);
    VerifyWrongCode(s2.table, phone, wrong, now);
    assert s3.table[phone].attempts == MaxAttempts;
    VerifyExhausted(s3.table, phone, otp, now);
  }

  /** The first wrong code of a fresh entry is answered with this text. */
  lemma FirstWrongCodeMessage()
    ensures InvalidOtpMessage(2) == "Invalid OTP. 2 attempts remaining."
  {
    assert Decimal.FromNat(2) == "2";
    assert InvalidOtpMessage(2) == InvalidOtpPrefix + "2" + RemainingSuffix;
    FirstWrongCodeText();
  }

  /** The fixed words around the count, spelled out for two attempts left. */
  lemma FirstWrongCodeText()
    ensures InvalidOtpPrefix + "2" + RemainingSuffix == "Invalid OTP. 2 attempts remaining."
  {
  }

  /** Issuing again replaces the entry: an earlier, different code no longer verifies. */
  lemma ReissueInvalidatesOldCode(t: Table, phone: string, oldOtp: string, newOtp: string,
                                  firstAt: int, secondAt: int, now: int)
    requires oldOtp != newOtp && now <= secondAt + OtpExpiryMs
    ensures var t' := Issued(Issued(t, phone, oldOtp, firstAt), phone, newOtp, secondAt);
      !Verify(t', phone, oldOtp, now).result.success &&
      Verify(t', phone, newOtp, now).result.success
  {
  }

  // ---------------------------------------------------------------------------
  // The process-wide store, changed in place.

  class Store {
    var entries: Table

    ghost predicate Valid()
      reads this
    {
      AttemptsBounded(entries)
    }

    constructor ()
      ensures Valid() && entries == map[]
    {
      entries := map[];
    }

    /** `storeOtp`: the entry for `phone` becomes the new code, five minutes of life and no attempts. */
    method StoreOtp(phone: string, otp: string, now: int)
      requires Valid()
      modifies this
      ensures Valid()
      ensures entries == Issued(old(entries), phone, otp, now)
    {
      entries := entries[phone := Entry(otp, now + OtpExpiryMs, 0)];
      IssuedKeepsBound(old(entries), phone, otp, now);
    }

    /** `verifyOtp`: the five-way decision, deleting the entry on every outcome but a wrong code. */
    method VerifyOtp(phone: string, otpToVerify: string, now: int) returns (r: VerifyResult)
      requires Valid()
      modifies this
      ensures Valid()
      ensures Verify(old(entries), phone, otpToVerify, now) == Step(r, entries)
    {
      VerifyKeepsBound(entries, phone, otpToVerify, now);
      if phone !in entries {
        return VerifyResult(false, NoOtpMessage);
      }
      var entry := entries[phone];
      if now > entry.expiresAt {
        entries := entries - {phone};
        return VerifyResult(false, ExpiredMessage);
      }
      if entry.attempts >= MaxAttempts {
        entries := entries - {phone};
        return VerifyResult(false, TooManyAttemptsMessage);
      }
      if entry.otp == otpToVerify {
        entries := entries - {phone};
        r := VerifyResult(true, VerifiedMessage);
      } else {
        entry := entry.(attempts := entry.attempts + 1);
        entries := entries[phone := entry];
        var remainingAttempts := MaxAttempts - entry.attempts;
        r := VerifyResult(false, InvalidOtpMessage(remainingAttempts));
      }
    }

    /** `canRequestOtp`: allowed with no entry or an expired one, which it deletes. */
    method CanRequestOtp(phone: string, now: int) returns (allowed: bool)
      requires Valid()
      modifies this
      ensures Valid()
      ensures CanRequest(old(entries), phone, now) == (allowed, entries)
    {
      CanRequestKeepsBound(entries, phone, now);
      if phone !in entries {
        return true;
      }
      if now > entries[phone].expiresAt {
        entries := entries - {phone};
        return true;
      }
      return false;
    }
  }
}
