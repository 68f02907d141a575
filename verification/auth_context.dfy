/**
 * The client-side session: whether the phone number has been verified (`None` while
 * the state is still being loaded) and which number it was, mirrored into the
 * browser's key/value storage under two keys so that a reload restores it.
 */
module AuthContext {
  import opened Wrappers

  const VerifiedKey := "isCivicConnectVerified"
  const PhoneKey := "civicConnectPhoneNumber"

  type Storage = map<string, string>

  /** The two state fields the provider exposes. */
  datatype Session = Session(isVerified: Option<bool>, phoneNumber: Option<string>)

  /** `Boolean#toString()`. */
  function BoolText(b: bool): string {
    if b then "true" else "false"
  }

  function Lookup(s: Storage, key: string): Option<string> {
    if key in s then Some(s[key]) else None
  }

  /**
   * The session the load effect builds from storage: verified exactly when the stored
   * flag is the text "true", never unknown; the phone number as stored, or none.
   */
  function Restored(s: Storage): (r: Session)
    ensures r.isVerified.Some?
    ensures r.isVerified.value <==> VerifiedKey in s && s[VerifiedKey] == "true"
    ensures r.phoneNumber.Some? <==> PhoneKey in s
    ensures PhoneKey in s ==> r.phoneNumber.value == s[PhoneKey]
  {
    Session(Some(Lookup(s, VerifiedKey) == Some("true")), Lookup(s, PhoneKey))
  }

  /** Writing a flag and reading it back gives the flag. */
  lemma RestoreVerifiedFlag(s: Storage, v: bool)
    ensures Restored(s[VerifiedKey := BoolText(v)]).isVerified == Some(v)
  {
  }

  /** After logout's two removals a reload gives an unverified session with no number. */
  lemma RestoreAfterLogout(s: Storage)
    ensures Restored(s - {VerifiedKey, PhoneKey}) == Session(Some(false), None)
  {
  }

  /**
   * With the phone key removed, as `setPhoneNumber("")` and `logout` leave storage,
   * a reload gives no number at all.
   */
  lemma EmptyPhoneIsNotRestored(s: Storage)
    ensures Restored(s - {PhoneKey}).phoneNumber == None
  {
  }

  class AuthProvider {
    var isVerified: Option<bool>
    var phoneNumber: Option<string>
    /** The browser's storage, shared with everything else on the page. */
    var storage: Storage

    /** State and storage agree: a reload now would give back exactly this session. */
    ghost predicate Synced()
      reads this
    {
      isVerified.Some? && Restored(storage) == Session(isVerified, phoneNumber)
    }

    /** Before the load effect both fields are unknown. */
    constructor (initial: Storage)
      ensures isVerified == None && phoneNumber == None && storage == initial
    {
      isVerified := None;
      phoneNumber := None;
      storage := initial;
    }

    /** The mount effect: read both keys; storage is not written. */
    method Load()
      modifies this
      ensures Session(isVerified, phoneNumber) == Restored(old(storage))
      ensures storage == old(storage)
      ensures Synced()
    {
      var storedIsVerified := Lookup(storage, VerifiedKey);
      isVerified := Some(storedIsVerified == Some("true"));
      var storedPhoneNumber := Lookup(storage, PhoneKey);
      phoneNumber := storedPhoneNumber;
    }

    /**
     * `setIsVerified(v)`: the flag in state and in storage; un-verifying also forgets the
     * phone number in both, verifying leaves it alone. A reload afterwards restores `v`.
     */
    method SetIsVerified(verified: bool)
      modifies this
      ensures isVerified == Some(verified)
      ensures phoneNumber == if verified then old(phoneNumber) else None
      ensures storage == if verified then old(storage)[VerifiedKey := "true"]
                         else old(storage)[VerifiedKey := "false"] - {PhoneKey}
      ensures Restored(storage).isVerified == Some(verified)
      ensures !verified ==> Synced()
      ensures old(Synced()) ==> Synced()
    {
      isVerified := Some(verified);
      storage := storage[VerifiedKey := BoolText(verified)];
      if !verified {
        storage := storage - {PhoneKey};
        phoneNumber := None;
      }
    }

    /**
     * `setPhoneNumber(p)`: the state takes `p` as given; storage keeps it only when it is
     * a non-empty string and otherwise loses the key.
     */
    method SetPhoneNumber(phone: Option<string>)
      modifies this
      ensures phoneNumber == phone && isVerified == old(isVerified)
      ensures storage == if phone.Some? && phone.value != "" then old(storage)[PhoneKey := phone.value]
                         else old(storage) - {PhoneKey}
      ensures old(Synced()) && phone != Some("") ==> Synced()
      ensures phone == Some("") ==> phoneNumber == Some("") && Restored(storage).phoneNumber == None
    {
      phoneNumber := phone;
      if phone.Some? && phone.value != "" {
        storage := storage[PhoneKey := phone.value];
      } else {
        storage := storage - {PhoneKey};
      }
    }

    /** `logout`: unverified with no number, both keys removed and every other key kept. */
    method Logout()
      modifies this
      ensures isVerified == Some(false) && phoneNumber == None
      ensures storage == old(storage) - {VerifiedKey, PhoneKey}
      ensures Synced()
    {
      isVerified := Some(false);
      phoneNumber := None;
      storage := storage - {VerifiedKey};
      storage := storage - {PhoneKey};
    }
  }
}
