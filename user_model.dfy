/** The server's user document: the 4–6-digit user PIN hook, `comparePin`, the JSON view and two field validators. */
module UserModel {
  import opened Wrappers
  import opened Text
  import Bcrypt

  const USER_PIN_ERROR := "PIN must be 4-6 digits"
  // Long messages are written as two literals so that Dafny can index their short first part,
  // which is what proves the messages distinct.
  const PHOTO_ERROR := "Profile photo must be " + "a valid image URL or base64 string"
  const PHONE_ERROR := "Please enter " + "a valid phone number"

  /** `/^\d{4,6}$/`. */
  predicate IsUserPin(s: string) {
    4 <= |s| <= 6 && AllDigits(s)
  }

  /** The `profilePhoto` validator: empty, a data-URL image, or anything starting with `http`. */
  predicate ProfilePhotoValid(photo: string) {
    photo == "" || StartsWith(photo, "data:image/") || StartsWith(photo, "http")
  }

  /** The `phoneNumber` validator `/^[\+]?[1-9][\d]{0,15}$/`, empty allowed. */
  function PhoneNumberValid(phone: string): (ok: bool)
    ensures ok <==> phone == "" || PhoneShape(phone) || (phone[0] == '+' && PhoneShape(phone[1..]))
  {
    if phone == "" then true
    else if phone[0] == '+' then PhoneShape(phone[1..]) || PhoneShape(phone)
    else PhoneShape(phone)
  }

  /** A digit 1–9 followed by at most fifteen digits. */
  predicate PhoneShape(s: string) {
    1 <= |s| <= 16 && '1' <= s[0] <= '9' && AllDigits(s)
  }

  /** An accepted phone number is at most seventeen characters, and all digits after an optional leading `+`. */
  lemma PhoneNumberBounds(phone: string)
    requires PhoneNumberValid(phone) && phone != ""
    ensures |phone| <= 17
    ensures phone[0] == '+' ==> |phone| >= 2 && AllDigits(phone[1..]) && phone[1] != '0'
    ensures phone[0] != '+' ==> AllDigits(phone) && phone[0] != '0'
  {
    if phone[0] == '+' {
      assert !IsDigit(phone[0]);
      assert !PhoneShape(phone);
    }
  }

  /**
   * The validator messages `save` reports, in schema order: the photo, then the phone number.
   * Both paths are validated on every save of a loaded user, since the library also validates
   * loaded paths.
   */
  function FieldErrors(photo: string, phone: string): (errors: seq<string>)
    ensures errors == [] <==> ProfilePhotoValid(photo) && PhoneNumberValid(phone)
    ensures PHOTO_ERROR in errors <==> !ProfilePhotoValid(photo)
    ensures PHONE_ERROR in errors <==> !PhoneNumberValid(phone)
  {
    assert PHOTO_ERROR[1] != PHONE_ERROR[1];
    (if !ProfilePhotoValid(photo) then [PHOTO_ERROR] else []) + (if !PhoneNumberValid(phone) then [PHONE_ERROR] else [])
  }

  /** The `toJSON` transform: the PIN hash and the version key never leave the server. */
  function ToJson<V>(ret: map<string, V>): (out: map<string, V>)
    ensures "userPin" !in out && "__v" !in out
    ensures forall k | k in ret && k != "userPin" && k != "__v" :: k in out && out[k] == ret[k]
    ensures out.Keys <= ret.Keys
  {
    ret - {"userPin", "__v"}
  }

  /** `comparePin`: false whenever either PIN is missing or empty, otherwise the hash comparison. */
  function ComparePin(candidate: Option<string>, stored: Option<string>): (ok: bool)
    ensures ok <==> Truthy(candidate) && Truthy(stored) && Bcrypt.Compare(candidate.value, stored.value)
  {
    if !Truthy(candidate) || !Truthy(stored) then false
    else Bcrypt.Compare(candidate.value, stored.value)
  }

  datatype UserSaveOutcome = UserSaved | UserInvalid(errors: seq<string>) | HookFailed(message: string)

  class UserDocument {
    var userPin: Option<string>
    var profilePhoto: string
    var phoneNumber: string
    var userPinModified: bool

    constructor Load(userPin: Option<string>, profilePhoto: string, phoneNumber: string)
      ensures this.userPin == userPin && this.profilePhoto == profilePhoto && this.phoneNumber == phoneNumber
      ensures !userPinModified
    {
      this.userPin := userPin;
      this.profilePhoto := profilePhoto;
      this.phoneNumber := phoneNumber;
      userPinModified := false;
    }

    /** Setting the PIN marks it modified when the value changes. */
    method SetUserPin(pin: Option<string>)
      modifies this`userPin, this`userPinModified
      ensures userPin == pin && userPinModified == (old(userPinModified) || pin != old(userPin))
    {
      userPinModified := userPinModified || pin != userPin;
      userPin := pin;
    }

    /**
     * The pre-save hook: a modified, non-empty PIN must be 4–6 digits and is then replaced by its
     * hash; an unmodified or empty PIN is left alone.
     */
    method PreSave(salt: Bcrypt.Salt) returns (error: Option<string>)
      modifies this`userPin
      ensures !(userPinModified && Truthy(old(userPin))) ==> error.None? && userPin == old(userPin)
      ensures userPinModified && Truthy(old(userPin)) && !IsUserPin(old(userPin).value) ==>
        error == Some(USER_PIN_ERROR) && userPin == old(userPin)
      ensures userPinModified && Truthy(old(userPin)) && IsUserPin(old(userPin).value) ==>
        error.None? && userPin == Some(Bcrypt.Hash(old(userPin).value, salt))
    {
      error := None;
      if userPinModified && Truthy(userPin) {
        if !IsUserPin(userPin.value) {
          error := Some(USER_PIN_ERROR);
          return;
        }
        userPin := Some(Bcrypt.Hash(userPin.value, salt));
      }
    }

    /**
     * `save()`: the photo and phone validators first, then the PIN hook. A save that gets through
     * both stores the hooked PIN and clears the modified mark; any failure changes nothing.
     */
    method Save(salt: Bcrypt.Salt) returns (outcome: UserSaveOutcome)
      modifies this`userPin, this`userPinModified
      ensures FieldErrors(profilePhoto, phoneNumber) != [] ==>
        outcome == UserInvalid(FieldErrors(profilePhoto, phoneNumber))
        && userPin == old(userPin) && userPinModified == old(userPinModified)
      ensures FieldErrors(profilePhoto, phoneNumber) == [] && old(userPinModified) && Truthy(old(userPin))
              && !IsUserPin(old(userPin).value) ==>
        outcome == HookFailed(USER_PIN_ERROR) && userPin == old(userPin) && userPinModified == old(userPinModified)
      ensures outcome == UserSaved <==>
        FieldErrors(profilePhoto, phoneNumber) == []
        && !(old(userPinModified) && Truthy(old(userPin)) && !IsUserPin(old(userPin).value))
      ensures outcome == UserSaved ==>
        !userPinModified
        && userPin == (if old(userPinModified) && Truthy(old(userPin)) then Some(Bcrypt.Hash(old(userPin).value, salt)) else old(userPin))
    {
      var errors := FieldErrors(profilePhoto, phoneNumber);
      if errors != [] {
        return UserInvalid(errors);
      }
      var error := PreSave(salt);
      if error.Some? {
        return HookFailed(error.value);
      }
      userPinModified := false;
      outcome := UserSaved;
    }
  }

  /**
   * A new 4–6-digit PIN is stored only as its hash: the stored value is not the PIN itself, and
   * `comparePin` then accepts exactly that PIN.
   */
  lemma SavedPinIsHashed(pin: string, salt: Bcrypt.Salt, candidate: Option<string>)
    requires IsUserPin(pin)
    ensures Bcrypt.Hash(pin, salt) != pin
    ensures ComparePin(candidate, Some(Bcrypt.Hash(pin, salt))) <==> candidate == Some(pin)
  {
    Bcrypt.HashDiffersFromPlain(pin, salt);
    if candidate.Some? {
      Bcrypt.CompareHash(pin, candidate.value, salt);
    }
  }
}
