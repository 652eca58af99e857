/** The add/edit dialog: strength meter, password generator, and the PIN gate on edits and new items. */
module PasswordModal {
  import opened Wrappers
  import opened VaultItem
  import Encryption

  // ---------------------------------------------------------------- strength meter

  predicate IsLowerAscii(c: char) { 'a' <= c <= 'z' }
  predicate IsUpperAscii(c: char) { 'A' <= c <= 'Z' }
  predicate IsDigitAscii(c: char) { '0' <= c <= '9' }
  /** `[^a-zA-Z0-9]`: anything that is not an ASCII letter or digit. */
  predicate IsSymbol(c: char) { !IsLowerAscii(c) && !IsUpperAscii(c) && !IsDigitAscii(c) }

  predicate HasLower(s: string) { exists i | 0 <= i < |s| :: IsLowerAscii(s[i]) }
  predicate HasUpper(s: string) { exists i | 0 <= i < |s| :: IsUpperAscii(s[i]) }
  predicate HasDigit(s: string) { exists i | 0 <= i < |s| :: IsDigitAscii(s[i]) }
  predicate HasSymbol(s: string) { exists i | 0 <= i < |s| :: IsSymbol(s[i]) }

  function Point(b: bool): nat { if b then 1 else 0 }

  /** How many of the five criteria a password meets: length 8, lower case, upper case, digit, symbol. */
  function CriteriaMet(password: string): (n: nat)
    ensures n <= 5
  {
    Point(|password| >= 8) + Point(HasLower(password)) + Point(HasUpper(password))
    + Point(HasDigit(password)) + Point(HasSymbol(password))
  }

  /** The strength score: 25 points per criterion met, capped at 100. */
  function Strength(password: string): int {
    if 25 * CriteriaMet(password) < 100 then 25 * CriteriaMet(password) else 100
  }

  /** `calculatePasswordStrength`: the score built up one criterion at a time, then capped. */
  method CalculatePasswordStrength(password: string) returns (strength: int)
    ensures strength == Strength(password)
    ensures 0 <= strength <= 100 && strength % 25 == 0
  {
    strength := 0;
    if |password| >= 8 { strength := strength + 25; }
    if HasLower(password) { strength := strength + 25; }
    if HasUpper(password) { strength := strength + 25; }
    if HasDigit(password) { strength := strength + 25; }
    if HasSymbol(password) { strength := strength + 25; }
    if strength > 100 {
      strength := 100;
    }
  }

  /** A score of 100 means at least four of the five criteria; the empty password scores 0. */
  lemma StrengthFull(password: string)
    ensures Strength(password) == 100 <==> CriteriaMet(password) >= 4
    ensures password == [] ==> Strength(password) == 0
  {
  }

  /** Every criterion a password meets it still meets with more characters appended. */
  lemma ExtendKeepsCriteria(p: string, q: string)
    ensures |p| >= 8 ==> |p + q| >= 8
    ensures HasLower(p) ==> HasLower(p + q)
    ensures HasUpper(p) ==> HasUpper(p + q)
    ensures HasDigit(p) ==> HasDigit(p + q)
    ensures HasSymbol(p) ==> HasSymbol(p + q)
  {
    if HasLower(p) {
      var i :| 0 <= i < |p| && IsLowerAscii(p[i]);
      assert (p + q)[i] == p[i];
    }
    if HasUpper(p) {
      var i :| 0 <= i < |p| && IsUpperAscii(p[i]);
      assert (p + q)[i] == p[i];
    }
    if HasDigit(p) {
      var i :| 0 <= i < |p| && IsDigitAscii(p[i]);
      assert (p + q)[i] == p[i];
    }
    if HasSymbol(p) {
      var i :| 0 <= i < |p| && IsSymbol(p[i]);
      assert (p + q)[i] == p[i];
    }
  }

  /** Typing more characters never lowers the meter. */
  lemma StrengthMonotone(p: string, q: string)
    ensures Strength(p) <= Strength(p + q)
  {
    ExtendKeepsCriteria(p, q);
  }

  const WEAK_COLOR := "from-red-400 to-red-500"
  const FAIR_COLOR := "from-orange-400 to-orange-500"
  const GOOD_COLOR := "from-yellow-400 to-yellow-500"
  const STRONG_COLOR := "from-green-400 to-green-500"

  /** `getStrengthColor`. */
  function StrengthColor(strength: int): (color: string)
    ensures color == WEAK_COLOR <==> strength < 25
    ensures color == FAIR_COLOR <==> 25 <= strength < 50
    ensures color == GOOD_COLOR <==> 50 <= strength < 75
    ensures color == STRONG_COLOR <==> 75 <= strength
  {
    if strength < 25 then WEAK_COLOR
    else if strength < 50 then FAIR_COLOR
    else if strength < 75 then GOOD_COLOR
    else STRONG_COLOR
  }

  /** `getStrengthText`. */
  function StrengthText(strength: int): (text: string)
    ensures text in LABELS
    ensures text == "Weak" <==> strength < 25
    ensures text == "Fair" <==> 25 <= strength < 50
    ensures text == "Good" <==> 50 <= strength < 75
    ensures text == "Strong" <==> 75 <= strength
  {
    if strength < 25 then "Weak"
    else if strength < 50 then "Fair"
    else if strength < 75 then "Good"
    else "Strong"
  }

  /** The colour that goes with each label. */
  function LabelColor(text: string): string {
    if text == "Weak" then WEAK_COLOR
    else if text == "Fair" then FAIR_COLOR
    else if text == "Good" then GOOD_COLOR
    else STRONG_COLOR
  }

  const LABELS: seq<string> := ["Weak", "Fair", "Good", "Strong"]

  /**
   * The bar's colour and its label use the same thresholds, and for a real password the label
   * is decided by how many criteria it meets: none Weak, one Fair, two Good, three or more Strong.
   */
  lemma LabelAndColorAgree(strength: int, password: string)
    ensures LabelColor(StrengthText(strength)) == StrengthColor(strength)
    ensures StrengthText(Strength(password))
      == LABELS[if CriteriaMet(password) < 3 then CriteriaMet(password) else 3]
  {
  }

  // ---------------------------------------------------------------- generator

  const CHARSET := "abcdefghijklmnopqrstuvwxyzABCDEFGHIJKLMNOPQRSTUVWXYZ0123456789!@#$%^&*"
  const GENERATED_LENGTH := 16

  /**
   * `generatePassword`: sixteen characters, each drawn from the 70-character set; the draw
   * (`Math.random`) is left open, so the contract holds for every choice.
   */
  method GeneratePassword() returns (password: string)
    ensures |password| == GENERATED_LENGTH
    ensures forall k | 0 <= k < |password| :: password[k] in CHARSET
  {
    password := "";
    var i := 0;
    while i < GENERATED_LENGTH
      invariant 0 <= i <= GENERATED_LENGTH && |password| == i
      invariant forall k | 0 <= k < |password| :: password[k] in CHARSET
    {
      var j :| 0 <= j < |CHARSET|;
      password := password + [CHARSET[j]];
      i := i + 1;
    }
  }

  /** A generated password always meets the length criterion, so the meter shows at least Fair. */
  lemma GeneratedIsAtLeastFair(password: string)
    requires |password| == GENERATED_LENGTH
    ensures Strength(password) >= 25 && StrengthText(Strength(password)) != "Weak"
  {
  }

  // ---------------------------------------------------------------- dialog state

  /** The blank form a new item starts from. */
  const EMPTY_FORM := Form("", "", "", "", "other", "", Some(""))

  class ModalState {
    const key: string
    var formData: Form
    var showPassword: bool
    var passwordStrength: int
    var showPinModal: bool
    var isEditMode: bool
    var pinVerified: bool
    var originalPassword: Option<Item>
    /** The PIN that last unlocked the item being edited. */
    ghost var verifiedWith: Option<string>

    /**
     * Edit mode always has an original item; a PIN-protected edit counts as verified only
     * after a PIN that verifies against the stored one; the meter tracks the password field.
     */
    ghost predicate Valid()
      reads this
    {
      (isEditMode <==> originalPassword.Some?)
      && (isEditMode && pinVerified && HasPin(originalPassword.value) ==>
            verifiedWith.Some?
            && Encryption.VerifyPin(key, verifiedWith.value, originalPassword.value.pin.value))
      && passwordStrength == Strength(formData.password)
    }

    constructor (key: string)
      ensures Valid() && this.key == key
      ensures formData == EMPTY_FORM && !isEditMode && !pinVerified && !showPinModal && !showPassword
    {
      this.key := key;
      formData := EMPTY_FORM;
      showPassword := false;
      passwordStrength := 0;
      showPinModal := false;
      isEditMode := false;
      pinVerified := false;
      originalPassword := None;
      verifiedWith := None;
    }

    /**
     * The effect that runs when the dialog opens: an item to edit is copied into the form and,
     * if it carries a PIN, locked behind the PIN pad; no item gives the blank form, unlocked.
     */
    method Open(password: Option<Item>)
      modifies this
      ensures Valid()
      ensures !showPassword && originalPassword == password && isEditMode == password.Some?
      ensures password.Some? ==>
        formData == FormOf(password.value)
        && pinVerified == !HasPin(password.value)
        && showPinModal == (HasPin(password.value) || old(showPinModal))
      ensures password.None? ==>
        formData == EMPTY_FORM && pinVerified && showPinModal == old(showPinModal)
    {
      showPassword := false;
      originalPassword := password;
      if password.Some? {
        formData := FormOf(password.value);
        isEditMode := true;
        pinVerified := false;
        if HasPin(password.value) {
          showPinModal := true;
        } else {
          pinVerified := true;
        }
      } else {
        formData := EMPTY_FORM;
        isEditMode := false;
        pinVerified := true;
      }
      passwordStrength := CalculatePasswordStrength(formData.password);
    }

    /** Typing in the password field. */
    method SetPassword(value: string)
      requires Valid()
      modifies this`formData, this`passwordStrength
      ensures Valid()
      ensures formData == old(formData).(password := value)
    {
      formData := formData.(password := value);
      passwordStrength := CalculatePasswordStrength(value);
    }

    /** The generator button: the form's password becomes a fresh sixteen-character draw. */
    method GenerateNewPassword()
      requires Valid()
      modifies this`formData, this`passwordStrength
      ensures Valid()
      ensures |formData.password| == GENERATED_LENGTH
      ensures forall k | 0 <= k < |formData.password| :: formData.password[k] in CHARSET
      ensures formData == old(formData).(password := formData.password)
    {
      var generated := GeneratePassword();
      formData := formData.(password := generated);
      passwordStrength := CalculatePasswordStrength(generated);
    }

    /**
     * `handlePinVerification`, the PIN pad's success callback. Editing a PIN-protected item: a PIN
     * that verifies unlocks the form, a wrong one changes nothing. Otherwise the entered PIN
     * becomes the new item's PIN and the form is saved (`saved`) and the dialog closed (`closed`).
     */
    method HandlePinVerification(pin: string) returns (saved: Option<Form>, closed: bool)
      requires Valid()
      modifies this`showPinModal, this`pinVerified, this`verifiedWith
      ensures Valid()
      ensures isEditMode && HasPin(originalPassword.value) ==>
        saved.None? && !closed
        && (Encryption.VerifyPin(key, pin, originalPassword.value.pin.value) ==> pinVerified && !showPinModal)
        && (!Encryption.VerifyPin(key, pin, originalPassword.value.pin.value) ==>
              pinVerified == old(pinVerified) && showPinModal == old(showPinModal))
      ensures !(isEditMode && HasPin(originalPassword.value)) ==>
        saved == Some(formData.(pin := Some(pin))) && closed && !showPinModal && pinVerified == old(pinVerified)
    {
      if isEditMode && HasPin(originalPassword.value) {
        var isValid := Encryption.VerifyPin(key, pin, originalPassword.value.pin.value);
        if isValid {
          showPinModal := false;
          pinVerified := true;
          verifiedWith := Some(pin);
        }
        saved, closed := None, false;
      } else {
        saved := Some(formData.(pin := Some(pin)));
        showPinModal := false;
        closed := true;
      }
    }

    /**
     * `handleSubmit`: an unverified edit is refused; a new item first asks for its PIN; a verified
     * edit is saved as it stands and the dialog closed.
     */
    method HandleSubmit() returns (saved: Option<Form>, closed: bool)
      requires Valid()
      modifies this`showPinModal
      ensures Valid()
      ensures isEditMode && !pinVerified ==> saved.None? && !closed && showPinModal == old(showPinModal)
      ensures !isEditMode ==> saved.None? && !closed && showPinModal
      ensures isEditMode && pinVerified ==> saved == Some(formData) && closed && showPinModal == old(showPinModal)
      ensures saved.Some? && HasPin(originalPassword.value) ==>
        verifiedWith.Some? && Encryption.VerifyPin(key, verifiedWith.value, originalPassword.value.pin.value)
    {
      if isEditMode && !pinVerified {
        saved, closed := None, false;
        return;
      }
      if !isEditMode {
        showPinModal := true;
        saved, closed := None, false;
      } else {
        saved, closed := Some(formData), true;
      }
    }

    /** `handleClose`: the verification is forgotten and the PIN pad hidden. */
    method HandleClose() returns (closed: bool)
      requires Valid()
      modifies this`pinVerified, this`showPinModal
      ensures Valid() && closed && !pinVerified && !showPinModal
    {
      pinVerified := false;
      showPinModal := false;
      closed := true;
    }
  }
}
