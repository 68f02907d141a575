/**
 * The two HTTP front doors of the passcode store: `POST /api/send-otp` and
 * `POST /api/verify-otp`. Each checks the format of its body fields before it
 * touches the store. A body field is `None` when it is missing, null or not a
 * string; the random draw behind a new code is the parameter `r`.
 */
module OtpRoutes {
  import opened Wrappers
  import Decimal
  import OtpStore

  /** The JSON reply: the HTTP status, the `success` field when there is one, and `message`. */
  datatype Response = Response(status: nat, success: Option<bool>, message: string)

  const InvalidPhoneMessage := "Invalid phone number format."
  const InvalidOtpFormatMessage := "Invalid OTP format. Must be 6 digits."
  const SentMessage := "OTP has been \"sent\" to your phone (simulated)."

  /** `^\d{10,15}$`: ten to fifteen ASCII digits and nothing else. */
  predicate IsValidPhone(s: string) {
    10 <= |s| <= 15 && Decimal.AllDigits(s)
  }

  /** `^\d{6}$`: exactly six ASCII digits. */
  predicate IsValidOtpFormat(s: string) {
    |s| == 6 && Decimal.AllDigits(s)
  }

  /** A body field that is present, a string, and a well-formed phone number. */
  predicate PhoneFieldOk(field: Option<string>) {
    field.Some? && IsValidPhone(field.value)
  }

  predicate OtpFieldOk(field: Option<string>) {
    field.Some? && IsValidOtpFormat(field.value)
  }

  /**
   * `Math.floor(100000 + Math.random() * 900000).toString()` for the draw
   * `r = floor(Math.random() * 900000)`: six digits without a leading zero, so
   * always a well-formed code for the verify route, and it reads back as `100000 + r`.
   */
  function GenerateOtp(r: nat): (code: string)
    requires r < 900000
    ensures IsValidOtpFormat(code) && code[0] != '0'
    ensures Decimal.ToNat(code) == 100000 + r
  {
    Decimal.SixDigits(100000 + r);
    Decimal.ToNatFromNat(100000 + r);
    Decimal.FromNat(100000 + r)
  }

  /** Different draws give different codes. */
  lemma GenerateOtpInjective(r1: nat, r2: nat)
    requires r1 < 900000 && r2 < 900000 && r1 != r2
    ensures GenerateOtp(r1) != GenerateOtp(r2)
  {
    Decimal.FromNatInjective(100000 + r1, 100000 + r2);
  }

  /** How the verify route turns the store's verdict into a reply. */
  function ToResponse(v: OtpStore.VerifyResult): (resp: Response)
    ensures resp.success == Some(v.success) && resp.message == v.message
    ensures resp.status == 200 <==> v.success
    ensures resp.status == 200 || resp.status == 400
  {
    if v.success then Response(200, Some(true), v.message)
    else Response(400, Some(false), v.message)
  }

  /**
   * `POST /api/send-otp`. A malformed number is refused with 400 and the store is left
   * alone. Otherwise `canRequestOtp` is consulted but its answer never blocks issuance,
   * and the number gets a fresh entry holding the new code, replacing any earlier one.
   * The reply is the same whatever the draw, so it never carries the code.
   */
  method SendOtp(store: OtpStore.Store, phoneNumber: Option<string>, r: nat, now: int)
    returns (resp: Response)
    requires store.Valid() && r < 900000
    modifies store
    ensures store.Valid()
    ensures !PhoneFieldOk(phoneNumber) ==>
      resp == Response(400, None, InvalidPhoneMessage) && store.entries == old(store.entries)
    ensures PhoneFieldOk(phoneNumber) ==>
      resp == Response(200, Some(true), SentMessage) &&
      store.entries == OtpStore.Issued(old(store.entries), phoneNumber.value, GenerateOtp(r), now)
  {
    if !PhoneFieldOk(phoneNumber) {
      return Response(400, None, InvalidPhoneMessage);
    }
    var phone := phoneNumber.value;
    // The route only logs a warning when this is false; issuance goes on.
    var allowed := store.CanRequestOtp(phone, now);
    var otp := GenerateOtp(r);
    store.StoreOtp(phone, otp, now);
    assert store.entries == OtpStore.Issued(old(store.entries), phone, otp, now);
    resp := Response(200, Some(true), SentMessage);
  }

  /**
   * `POST /api/verify-otp`. The phone number is checked first, then the code; either
   * malformed field is refused with 400 without touching the store, so a malformed
   * code costs no attempt. Otherwise the store decides, once, and its message is
   * passed through unchanged.
   */
  method VerifyOtp(store: OtpStore.Store, phoneNumber: Option<string>, otp: Option<string>, now: int)
    returns (resp: Response)
    requires store.Valid()
    modifies store
    ensures store.Valid()
    ensures !PhoneFieldOk(phoneNumber) ==>
      resp == Response(400, None, InvalidPhoneMessage) && store.entries == old(store.entries)
    ensures PhoneFieldOk(phoneNumber) && !OtpFieldOk(otp) ==>
      resp == Response(400, None, InvalidOtpFormatMessage) && store.entries == old(store.entries)
    ensures PhoneFieldOk(phoneNumber) && OtpFieldOk(otp) ==>
      var step := OtpStore.Verify(old(store.entries), phoneNumber.value, otp.value, now);
      store.entries == step.table && resp == ToResponse(step.result)
  {
    if !PhoneFieldOk(phoneNumber) {
      return Response(400, None, InvalidPhoneMessage);
    }
    if !OtpFieldOk(otp) {
      return Response(400, None, InvalidOtpFormatMessage);
    }
    var verificationResult := store.VerifyOtp(phoneNumber.value, otp.value, now);
    resp := ToResponse(verificationResult);
  }

  /**
   * A code the send route issued always passes the verify route's format check, so
   * within five minutes the verify route answers 200 for it, and only once.
   */
  lemma IssuedCodeVerifiesOnce(t: OtpStore.Table, phone: string, r: nat, issuedAt: int, now: int)
    requires IsValidPhone(phone) && r < 900000
    requires issuedAt <= now <= issuedAt + OtpStore.OtpExpiryMs
    ensures OtpFieldOk(Some(GenerateOtp(r)))
    ensures var t' := OtpStore.Issued(t, phone, GenerateOtp(r), issuedAt);
      var first := OtpStore.Verify(t', phone, GenerateOtp(r), now);
      ToResponse(first.result) == Response(200, Some(true), OtpStore.VerifiedMessage) &&
      ToResponse(OtpStore.Verify(first.table, phone, GenerateOtp(r), now).result) ==
        Response(400, Some(false), OtpStore.NoOtpMessage)
  {
    OtpStore.IssueThenVerifyTwice(t, phone, GenerateOtp(r), issuedAt, now, now);
  }

  /**
   * A second send for the same number with a different draw replaces the entry: the
   * first code no longer verifies, and the new one does.
   */
  lemma ResendInvalidatesEarlierCode(t: OtpStore.Table, phone: string, r1: nat, r2: nat,
                                     firstAt: int, secondAt: int, now: int)
    requires r1 < 900000 && r2 < 900000 && r1 != r2
    requires now <= secondAt + OtpStore.OtpExpiryMs
    ensures var t' := OtpStore.Issued(OtpStore.Issued(t, phone, GenerateOtp(r1), firstAt), phone, GenerateOtp(r2), secondAt);
      !OtpStore.Verify(t', phone, GenerateOtp(r1), now).result.success &&
      OtpStore.Verify(t', phone, GenerateOtp(r2), now).result.success
  {
    GenerateOtpInjective(r1, r2);
    OtpStore.ReissueInvalidatesOldCode(t, phone, GenerateOtp(r1), GenerateOtp(r2), firstAt, secondAt, now);
  }
}
