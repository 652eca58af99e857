/** One vault item on the dashboard: its PIN-gated view, copy and edit actions. */
module PasswordCard {
  import opened Wrappers
  import opened Text
  import opened VaultItem
  import Encryption

  datatype Action = View | Copy | Edit

  /** What an action asks of the outside world: nothing, a clipboard write, or `onEdit(password)`. */
  datatype Effect = NoEffect | CopyToClipboard(text: string) | EditItem(item: Item)

  /** The effect `executeAction` produces for an action on `item` (viewing only toggles local state). */
  function ActionEffect(action: Action, item: Item): Effect {
    match action
    case View => NoEffect
    case Copy => CopyToClipboard(item.password)
    case Edit => EditItem(item)
  }

  const SOCIAL_ICON := "\U{1F465}"
  const WORK_ICON := "\U{1F4BC}"
  const FINANCE_ICON := "\U{1F4B3}"
  const ENTERTAINMENT_ICON := "\U{1F3AE}"
  const OTHER_ICON := "\U{1F4C1}"

  /** `getCategoryIcon`: the five known categories have their own icon; anything else shows the folder. */
  function CategoryIcon(category: string): (icon: string)
    ensures category == "social" ==> icon == SOCIAL_ICON
    ensures category == "work" ==> icon == WORK_ICON
    ensures category == "finance" ==> icon == FINANCE_ICON
    ensures category == "entertainment" ==> icon == ENTERTAINMENT_ICON
    ensures category == "other" || category !in CATEGORIES ==> icon == OTHER_ICON
    ensures icon in [SOCIAL_ICON, WORK_ICON, FINANCE_ICON, ENTERTAINMENT_ICON, OTHER_ICON]
  {
    if category == "social" then SOCIAL_ICON
    else if category == "work" then WORK_ICON
    else if category == "finance" then FINANCE_ICON
    else if category == "entertainment" then ENTERTAINMENT_ICON
    else OTHER_ICON
  }

  /** Distinct known categories get distinct icons, so the icon tells the category apart. */
  lemma CategoryIconsDistinct(a: string, b: string)
    requires a in CATEGORIES && b in CATEGORIES && a != b
    ensures CategoryIcon(a) != CategoryIcon(b)
  {
  }

  /** The address the external-link button opens: `https://` is added unless the site already starts with `http`. */
  function WebsiteUrl(website: string): (url: string)
    ensures StartsWith(url, "http")
    ensures StartsWith(website, "http") ==> url == website
    ensures !StartsWith(website, "http") ==> url == "https://" + website
  {
    if StartsWith(website, "http") then website else "https://" + website
  }

  /** Opening an address that was already completed changes nothing. */
  lemma WebsiteUrlIdempotent(website: string)
    ensures WebsiteUrl(WebsiteUrl(website)) == WebsiteUrl(website)
  {
  }

  class Card {
    const key: string
    const password: Item
    var showPassword: bool
    var showPinModal: bool
    var pinAction: Action

    constructor (key: string, password: Item)
      ensures this.key == key && this.password == password
      ensures !showPassword && !showPinModal && pinAction == View
    {
      this.key := key;
      this.password := password;
      showPassword := false;
      showPinModal := false;
      pinAction := View;
    }

    /** `executeAction`: view toggles the revealed password; copy and edit hand the item out. */
    method ExecuteAction(action: Action) returns (effect: Effect)
      modifies this`showPassword
      ensures effect == ActionEffect(action, password)
      ensures showPassword == (if action == View then !old(showPassword) else old(showPassword))
    {
      match action {
        case View =>
          showPassword := !showPassword;
          effect := NoEffect;
        case Copy =>
          effect := CopyToClipboard(password.password);
        case Edit =>
          effect := EditItem(password);
      }
    }

    /** `handlePasswordAction`: on a PIN-protected item the action is parked and the PIN pad opened; otherwise it runs at once. */
    method HandlePasswordAction(action: Action) returns (effect: Effect)
      modifies this
      ensures HasPin(password) ==>
        effect == NoEffect && pinAction == action && showPinModal && showPassword == old(showPassword)
      ensures !HasPin(password) ==>
        effect == ActionEffect(action, password)
        && showPassword == (if action == View then !old(showPassword) else old(showPassword))
        && pinAction == old(pinAction) && showPinModal == old(showPinModal)
    {
      if HasPin(password) {
        pinAction := action;
        showPinModal := true;
        effect := NoEffect;
      } else {
        effect := ExecuteAction(action);
      }
    }

    /**
     * `handlePinVerification`: the parked action runs, and the pad closes, only when the item has
     * no PIN or the entered PIN verifies; a wrong PIN leaves everything as it was.
     */
    method HandlePinVerification(pin: string) returns (effect: Effect)
      modifies this
      ensures pinAction == old(pinAction)
      ensures HasPin(password) && !Encryption.VerifyPin(key, pin, password.pin.value) ==>
        effect == NoEffect && showPinModal == old(showPinModal) && showPassword == old(showPassword)
      ensures !HasPin(password) || Encryption.VerifyPin(key, pin, password.pin.value) ==>
        effect == ActionEffect(old(pinAction), password) && !showPinModal
        && showPassword == (if old(pinAction) == View then !old(showPassword) else old(showPassword))
    {
      if HasPin(password) {
        var isValid := Encryption.VerifyPin(key, pin, password.pin.value);
        if isValid {
          showPinModal := false;
          effect := ExecuteAction(pinAction);
        } else {
          effect := NoEffect;
        }
      } else {
        showPinModal := false;
        effect := ExecuteAction(pinAction);
      }
    }

    /** The username's copy button is not PIN-gated. */
    method CopyUsername() returns (effect: Effect)
      ensures effect == CopyToClipboard(password.username)
    {
      effect := CopyToClipboard(password.username);
    }

    /** The PIN pad's close button: only the pad closes; the parked action stays as it was. */
    method ClosePinModal()
      modifies this`showPinModal
      ensures !showPinModal
    {
      showPinModal := false;
    }
  }

  /**
   * On an item whose PIN was stored as an envelope, the password is revealed, copied or handed
   * to the editor only after the pad submits exactly the item's PIN.
   */
  lemma ProtectedActionNeedsPin(key: string, pinText: string, pinSalt: Encryption.Salt, entered: string, item: Item)
    requires item.pin == Some(Encryption.EncryptPin(key, pinText, pinSalt)) && pinText != ""
    ensures HasPin(item)
    ensures Encryption.VerifyPin(key, entered, item.pin.value) <==> entered == pinText
  {
    Encryption.PinEnvelopeAcceptsOnlyPin(key, pinText, pinSalt);
  }
}
