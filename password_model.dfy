/** The server's vault-entry document: its validators, the hashing pre-save hooks, `comparePin` and the JSON view. */
module PasswordModel {
  import opened Wrappers
  import opened Text
  import Bcrypt

  const CATEGORY_ENUM: seq<string> := ["social", "work", "finance", "entertainment", "other"]
  /** The prefix both hooks treat as "already hashed". */
  const HASHED_MARK := "$2b$"
  const EMPTY_PASSWORD_ERROR := "Password cannot be empty"
  const PIN_FORMAT_ERROR := "PIN must be exactly 4 digits"
  /** Twelve bullets, shown instead of a stored password. */
  const MASK := "\U{2022}\U{2022}\U{2022}\U{2022}\U{2022}\U{2022}\U{2022}\U{2022}\U{2022}\U{2022}\U{2022}\U{2022}"

  const TITLE_MAX := 100
  const USERNAME_MAX := 100
  const PASSWORD_MAX := 500
  const WEBSITE_MAX := 200
  const NOTES_MAX := 1000

  /** The stored fields of an entry (timestamps, `lastAccessed` and `encryptionVersion` aside). */
  datatype Record = Record(
    userId: string,
    title: string,
    username: string,
    password: string,
    website: string,
    category: string,
    notes: string,
    pin: Option<string>,
    isActive: bool,
    accessCount: nat)

  const ALL_PATHS: set<string> :=
    {"userId", "title", "username", "password", "website", "category", "notes", "pin", "isActive", "accessCount"}

  predicate IsFourDigits(s: string) {
    |s| == 4 && AllDigits(s)
  }

  /** The `pin` validator: no PIN, an empty one, or exactly four digits. */
  predicate PinValid(pin: Option<string>) {
    !Truthy(pin) || IsFourDigits(pin.value)
  }

  // ---------------------------------------------------------------- validation

  /** The first failing validator of one path, as the library reports it per path. */
  datatype ValidationError =
    | Required(path: string)
    | TooLong(path: string, maxLength: nat)
    | NotInEnum(path: string, value: string)
    | InvalidPin

  /** A required string path with a maximum length. */
  function RequiredString(path: string, value: string, maxLength: nat): seq<ValidationError> {
    if value == "" then [Required(path)]
    else if |value| > maxLength then [TooLong(path, maxLength)]
    else []
  }

  /** The paths with `required: true` among the modelled ones. */
  const REQUIRED_PATHS: set<string> := {"userId", "title", "username", "password", "website"}

  /**
   * The paths `save` validates. By default the library validates the required paths, the paths
   * loaded from the store and the modified ones; with `validateModifiedOnly` only the modified ones.
   */
  function PathsToValidate(modified: set<string>, loaded: set<string>, modifiedOnly: bool): (paths: set<string>)
    ensures modified <= paths
    ensures !modifiedOnly ==> REQUIRED_PATHS + loaded <= paths
    ensures modifiedOnly ==> paths == modified
    ensures modified <= ALL_PATHS && loaded <= ALL_PATHS ==> paths <= ALL_PATHS
  {
    if modifiedOnly then modified else REQUIRED_PATHS + loaded + modified
  }

  /** The errors `save` reports before any hook runs, one path at a time among the validated ones. */
  function ValidationErrors(r: Record, validated: set<string>): (errors: seq<ValidationError>)
    ensures errors == [] <==> Passes(r, validated)
  {
    (if "title" in validated then RequiredString("title", r.title, TITLE_MAX) else [])
    + (if "username" in validated then RequiredString("username", r.username, USERNAME_MAX) else [])
    + (if "password" in validated then RequiredString("password", r.password, PASSWORD_MAX) else [])
    + (if "website" in validated then RequiredString("website", r.website, WEBSITE_MAX) else [])
    + (if "category" in validated && r.category !in CATEGORY_ENUM then [NotInEnum("category", r.category)] else [])
    + (if "notes" in validated && |r.notes| > NOTES_MAX then [TooLong("notes", NOTES_MAX)] else [])
    + (if "pin" in validated && !PinValid(r.pin) then [InvalidPin] else [])
  }

  /** The schema's constraints stated directly, path by path. */
  predicate Passes(r: Record, validated: set<string>) {
    ("title" in validated ==> 0 < |r.title| <= TITLE_MAX)
    && ("username" in validated ==> 0 < |r.username| <= USERNAME_MAX)
    && ("password" in validated ==> 0 < |r.password| <= PASSWORD_MAX)
    && ("website" in validated ==> 0 < |r.website| <= WEBSITE_MAX)
    && ("category" in validated ==> r.category in CATEGORY_ENUM)
    && ("notes" in validated ==> |r.notes| <= NOTES_MAX)
    && ("pin" in validated ==> PinValid(r.pin))
  }

  /** Validating fewer paths can only drop errors. */
  lemma {:induction false} FewerPathsFewerErrors(r: Record, fewer: set<string>, more: set<string>)
    requires fewer <= more && ValidationErrors(r, more) == []
    ensures ValidationErrors(r, fewer) == []
  {
    assert Passes(r, more);
  }

  // ---------------------------------------------------------------- the two pre-save hooks

  /** The password hook acts when the password was modified and does not look hashed. */
  predicate PasswordHookApplies(r: Record, modified: set<string>) {
    "password" in modified && !StartsWith(r.password, HASHED_MARK)
  }

  /** The pin hook acts when the pin was modified, is non-empty and does not look hashed. */
  predicate PinHookApplies(r: Record, modified: set<string>) {
    "pin" in modified && Truthy(r.pin) && !StartsWith(r.pin.value, HASHED_MARK)
  }

  /** The error the password hook throws, if any. */
  function PasswordHookError(r: Record, modified: set<string>): (e: Option<string>)
    ensures e.Some? <==> PasswordHookApplies(r, modified) && r.password == ""
  {
    if PasswordHookApplies(r, modified) && r.password == "" then Some(EMPTY_PASSWORD_ERROR) else None
  }

  /** The error the pin hook throws, if any. */
  function PinHookError(r: Record, modified: set<string>): (e: Option<string>)
    ensures e.Some? <==> PinHookApplies(r, modified) && !IsFourDigits(r.pin.value)
  {
    if PinHookApplies(r, modified) && !IsFourDigits(r.pin.value) then Some(PIN_FORMAT_ERROR) else None
  }

  /** Validation runs first, so once it passes neither hook can throw: both hook errors are unreachable through `save`. */
  lemma HooksCannotFailAfterValidation(r: Record, modified: set<string>, validated: set<string>)
    requires modified <= validated && ValidationErrors(r, validated) == []
    ensures PasswordHookError(r, modified).None? && PinHookError(r, modified).None?
  {
  }

  /** What a successful save stores: each hook that applies replaces its value by a hash. */
  function Hooked(r: Record, modified: set<string>, passwordSalt: Bcrypt.Salt, pinSalt: Bcrypt.Salt): Record {
    r.(password := if PasswordHookApplies(r, modified) then Bcrypt.Hash(r.password, passwordSalt) else r.password,
       pin := if PinHookApplies(r, modified) then Some(Bcrypt.Hash(r.pin.value, pinSalt)) else r.pin)
  }

  /**
   * After a successful save the stored password and PIN are hashes that accept exactly the values
   * that were saved; a value already carrying the hashed mark, or not modified, is kept as it was.
   */
  lemma HookedStoresHashes(r: Record, modified: set<string>, passwordSalt: Bcrypt.Salt, pinSalt: Bcrypt.Salt, candidate: string)
    requires ValidationErrors(r, modified) == []
    ensures PasswordHookApplies(r, modified) ==>
      (Bcrypt.Compare(candidate, Hooked(r, modified, passwordSalt, pinSalt).password) <==> candidate == r.password)
    ensures !PasswordHookApplies(r, modified) ==> Hooked(r, modified, passwordSalt, pinSalt).password == r.password
    ensures PinHookApplies(r, modified) ==>
      (ComparePin(Hooked(r, modified, passwordSalt, pinSalt).pin, Some(candidate)) <==> candidate == r.pin.value)
    ensures !PinHookApplies(r, modified) ==> Hooked(r, modified, passwordSalt, pinSalt).pin == r.pin
  {
    Bcrypt.CompareHash(r.password, candidate, passwordSalt);
    if PinHookApplies(r, modified) {
      Bcrypt.CompareHash(r.pin.value, candidate, pinSalt);
      Bcrypt.HashDiffersFromPlain(r.pin.value, pinSalt);
    }
  }

  /** A value that already starts with the hashed mark passes both hooks unchanged. */
  lemma MarkedValuesUntouched(r: Record, modified: set<string>, passwordSalt: Bcrypt.Salt, pinSalt: Bcrypt.Salt)
    requires StartsWith(r.password, HASHED_MARK)
    requires r.pin.Some? && StartsWith(r.pin.value, HASHED_MARK)
    ensures Hooked(r, modified, passwordSalt, pinSalt) == r
  {
  }

  // ---------------------------------------------------------------- comparePin and toJSON

  /**
   * `comparePin`: false without consulting the hash when either PIN is missing or empty or the
   * candidate is not four digits; otherwise what the hash comparison says. It never throws.
   */
  function ComparePin(stored: Option<string>, candidate: Option<string>): (ok: bool)
    ensures !Truthy(stored) || !Truthy(candidate) ==> !ok
    ensures Truthy(candidate) && !IsFourDigits(candidate.value) ==> !ok
    ensures ok <==> Truthy(stored) && Truthy(candidate) && IsFourDigits(candidate.value)
                    && Bcrypt.Compare(candidate.value, stored.value)
  {
    if !Truthy(stored) || !Truthy(candidate) then false
    else if !IsFourDigits(candidate.value) then false
    else Bcrypt.Compare(candidate.value, stored.value)
  }

  /** A JSON value of the serialised document. */
  datatype Json = Str(s: string) | Num(n: int) | Bool(b: bool) | Null

  predicate JsonTruthy(v: Json) {
    match v
    case Str(s) => s != ""
    case Num(n) => n != 0
    case Bool(b) => b
    case Null => false
  }

  /** The `toJSON` transform: a truthy password becomes the mask and the version key `__v` is dropped. */
  function ToJson(ret: map<string, Json>): (out: map<string, Json>)
    ensures out.Keys == ret.Keys - {"__v"}
    ensures "password" in ret && JsonTruthy(ret["password"]) ==> out["password"] == Str(MASK)
    ensures forall k | k in out && k != "password" :: out[k] == ret[k]
    ensures "password" in out && !JsonTruthy(ret["password"]) ==> out["password"] == ret["password"]
  {
    var masked := if "password" in ret && JsonTruthy(ret["password"]) then ret["password" := Str(MASK)] else ret;
    masked - {"__v"}
  }

  /** The JSON view never carries a stored password other than the mask, and serialising twice changes nothing. */
  lemma ToJsonHidesPassword(ret: map<string, Json>)
    ensures "password" in ToJson(ret) ==>
      ToJson(ret)["password"] == Str(MASK) || !JsonTruthy(ToJson(ret)["password"])
    ensures ToJson(ToJson(ret)) == ToJson(ret)
  {
  }

  // ---------------------------------------------------------------- the document

  /** `Object.assign(doc, updateFields)`: each present field replaces the stored one. */
  datatype Update = Update(
    title: Option<string>,
    username: Option<string>,
    password: Option<string>,
    website: Option<string>,
    category: Option<string>,
    notes: Option<string>,
    pin: Option<Option<string>>)

  function Pick<T>(field: Option<T>, current: T): T {
    if field.Some? then field.value else current
  }

  function Apply(r: Record, u: Update): (r': Record)
    ensures r'.userId == r.userId && r'.isActive == r.isActive && r'.accessCount == r.accessCount
    ensures u.title.None? ==> r'.title == r.title
    ensures u.title.Some? ==> r'.title == u.title.value
    ensures u.username.None? ==> r'.username == r.username
    ensures u.username.Some? ==> r'.username == u.username.value
    ensures u.password.None? ==> r'.password == r.password
    ensures u.password.Some? ==> r'.password == u.password.value
    ensures u.website.None? ==> r'.website == r.website
    ensures u.website.Some? ==> r'.website == u.website.value
    ensures u.category.None? ==> r'.category == r.category
    ensures u.category.Some? ==> r'.category == u.category.value
    ensures u.notes.None? ==> r'.notes == r.notes
    ensures u.notes.Some? ==> r'.notes == u.notes.value
    ensures u.pin.None? ==> r'.pin == r.pin
    ensures u.pin.Some? ==> r'.pin == u.pin.value
  {
    r.(title := Pick(u.title, r.title), username := Pick(u.username, r.username),
       password := Pick(u.password, r.password), website := Pick(u.website, r.website),
       category := Pick(u.category, r.category), notes := Pick(u.notes, r.notes),
       pin := Pick(u.pin, r.pin))
  }

  /** Whether path `p` holds different values in `a` and `b`. */
  predicate Differs(a: Record, b: Record, p: string) {
    if p == "userId" then a.userId != b.userId
    else if p == "title" then a.title != b.title
    else if p == "username" then a.username != b.username
    else if p == "password" then a.password != b.password
    else if p == "website" then a.website != b.website
    else if p == "category" then a.category != b.category
    else if p == "notes" then a.notes != b.notes
    else if p == "pin" then a.pin != b.pin
    else if p == "isActive" then a.isActive != b.isActive
    else if p == "accessCount" then a.accessCount != b.accessCount
    else false
  }

  /** The paths whose value differs between two records: the library marks only those as modified. */
  function ChangedPaths(a: Record, b: Record): (paths: set<string>)
    ensures paths <= ALL_PATHS
    ensures a == b ==> paths == {}
  {
    set p | p in ALL_PATHS && Differs(a, b, p)
  }

  /** A path is changed exactly when its two values differ, and no path is changed exactly when the records are equal. */
  lemma ChangedPathsExactly(a: Record, b: Record)
    ensures var paths := ChangedPaths(a, b);
      ("userId" in paths <==> a.userId != b.userId) && ("title" in paths <==> a.title != b.title)
      && ("username" in paths <==> a.username != b.username) && ("password" in paths <==> a.password != b.password)
      && ("website" in paths <==> a.website != b.website) && ("category" in paths <==> a.category != b.category)
      && ("notes" in paths <==> a.notes != b.notes) && ("pin" in paths <==> a.pin != b.pin)
      && ("isActive" in paths <==> a.isActive != b.isActive) && ("accessCount" in paths <==> a.accessCount != b.accessCount)
    ensures ChangedPaths(a, b) == {} <==> a == b
  {
    var paths := ChangedPaths(a, b);
    if paths == {} {
      forall p | p in ALL_PATHS ensures !Differs(a, b, p) {
        assert p !in paths;
      }
    }
  }

  /** Whether update `u` carries a value for path `p`. */
  predicate Carries(u: Update, p: string) {
    if p == "title" then u.title.Some?
    else if p == "username" then u.username.Some?
    else if p == "password" then u.password.Some?
    else if p == "website" then u.website.Some?
    else if p == "category" then u.category.Some?
    else if p == "notes" then u.notes.Some?
    else if p == "pin" then u.pin.Some?
    else false
  }

  /** The paths an update assigns: those of the fields it carries. */
  function Carried(u: Update): (paths: set<string>)
    ensures paths <= ALL_PATHS
    ensures forall p | p in ALL_PATHS :: p in paths <==> Carries(u, p)
  {
    set p | p in ALL_PATHS && Carries(u, p)
  }

  /** Assigning an update marks at most the paths it carries, and those only where the value changes. */
  lemma {:induction false} AssignMarksOnlyCarried(r: Record, u: Update)
    ensures ChangedPaths(r, Apply(r, u)) <= Carried(u)
  {
    var changed := ChangedPaths(r, Apply(r, u));
    forall p | p in changed ensures p in Carried(u) {
      assert p in ALL_PATHS;
    }
  }

  /**
   * As written, every later save of an entry that was created with a PIN fails: the stored PIN is
   * now a hash, it is loaded and so validated again, and a hash is not four digits. An update that
   * leaves the PIN alone and the soft delete both end in `InvalidPin`, whatever else they carry.
   */
  lemma {:induction false} StoredPinHashFailsResave(r: Record, u: Update, passwordSalt: Bcrypt.Salt, pinSalt: Bcrypt.Salt)
    requires ValidationErrors(r, ALL_PATHS) == [] && Truthy(r.pin)
    requires u.pin.None?
    ensures var stored := Hooked(r, ALL_PATHS, passwordSalt, pinSalt);
      InvalidPin in ValidationErrors(Apply(stored, u), PathsToValidate(ChangedPaths(stored, Apply(stored, u)), ALL_PATHS, false))
      && InvalidPin in ValidationErrors(stored.(isActive := false), PathsToValidate({"isActive"}, ALL_PATHS, false))
  {
    var stored := Hooked(r, ALL_PATHS, passwordSalt, pinSalt);
    assert IsFourDigits(r.pin.value);
    assert !StartsWith(r.pin.value, HASHED_MARK) by {
      assert IsDigit(r.pin.value[0]);
    }
    assert stored.pin == Some(Bcrypt.Hash(r.pin.value, pinSalt));
    assert !PinValid(stored.pin);
    assert Apply(stored, u).pin == stored.pin;
  }

  /**
   * With `validateModifiedOnly` the same saves succeed: an update whose carried values are valid
   * passes whatever the stored record holds (a PIN hash included), and so does the soft delete.
   */
  lemma {:induction false} ModifiedOnlyResaveSucceeds(stored: Record, u: Update)
    requires ValidationErrors(Apply(stored, u), Carried(u)) == []
    ensures var applied := Apply(stored, u);
      ValidationErrors(applied, PathsToValidate(ChangedPaths(stored, applied), ALL_PATHS, true)) == []
    ensures ValidationErrors(stored.(isActive := false), PathsToValidate({"isActive"}, ALL_PATHS, true)) == []
  {
    var applied := Apply(stored, u);
    AssignMarksOnlyCarried(stored, u);
    FewerPathsFewerErrors(applied, ChangedPaths(stored, applied), Carried(u));
  }

  datatype SaveOutcome = Saved | Invalid(errors: seq<ValidationError>) | Failed(message: string)

  class PasswordDocument {
    var userId: string
    var title: string
    var username: string
    var password: string
    var website: string
    var category: string
    var notes: string
    var pin: Option<string>
    var isActive: bool
    var accessCount: nat
    /** The paths changed since the document was loaded or last saved. */
    var modified: set<string>
    /** The paths whose values came from the store (the library's "init" paths). */
    var loaded: set<string>

    function Snapshot(): Record
      reads this
    {
      Record(userId, title, username, password, website, category, notes, pin, isActive, accessCount)
    }

    /** `new Password({...})`: active, never accessed, every path counts as modified and none as loaded. */
    constructor Create(userId: string, title: string, username: string, password: string,
                       website: string, category: string, notes: string, pin: Option<string>)
      ensures Snapshot() == Record(userId, title, username, password, website, category, notes, pin, true, 0)
      ensures modified == ALL_PATHS && loaded == {}
    {
      this.userId := userId;
      this.title := title;
      this.username := username;
      this.password := password;
      this.website := website;
      this.category := category;
      this.notes := notes;
      this.pin := pin;
      isActive := true;
      accessCount := 0;
      modified := ALL_PATHS;
      loaded := {};
    }

    /** A document as `findOne` returns it: every path loaded, nothing modified yet. */
    constructor Load(r: Record)
      ensures Snapshot() == r && modified == {} && loaded == ALL_PATHS
    {
      userId := r.userId;
      title := r.title;
      username := r.username;
      password := r.password;
      website := r.website;
      category := r.category;
      notes := r.notes;
      pin := r.pin;
      isActive := r.isActive;
      accessCount := r.accessCount;
      modified := {};
      loaded := ALL_PATHS;
    }

    method SetRecord(r: Record)
      modifies this
      ensures Snapshot() == r && loaded == old(loaded)
      ensures modified == old(modified) + ChangedPaths(old(Snapshot()), r)
    {
      var before := Snapshot();
      var changed := ChangedPaths(before, r);
      assert changed == ChangedPaths(old(Snapshot()), r);
      userId, title, username, password, website := r.userId, r.title, r.username, r.password, r.website;
      category, notes, pin, isActive, accessCount := r.category, r.notes, r.pin, r.isActive, r.accessCount;
      modified := modified + changed;
      assert Snapshot() == r;
    }

    /** `Object.assign(doc, updateFields)`: assigning a value equal to the stored one does not mark the path. */
    method Assign(u: Update)
      modifies this
      ensures Snapshot() == Apply(old(Snapshot()), u) && loaded == old(loaded)
      ensures modified == old(modified) + ChangedPaths(old(Snapshot()), Apply(old(Snapshot()), u))
    {
      SetRecord(Apply(Snapshot(), u));
    }

    /** The soft delete's `password.isActive = false`. */
    method Deactivate()
      modifies this
      ensures Snapshot() == old(Snapshot()).(isActive := false) && loaded == old(loaded)
      ensures modified == old(modified) + (if old(isActive) then {"isActive"} else {})
    {
      SetRecord(Snapshot().(isActive := false));
    }

    /** The first pre-save hook: hash a modified, unhashed password; an empty one is refused. */
    method PreSavePassword(salt: Bcrypt.Salt) returns (error: Option<string>)
      modifies this`password
      ensures error == PasswordHookError(old(Snapshot()), modified)
      ensures error.None? ==> password == Hooked(old(Snapshot()), modified, salt, salt).password
      ensures error.Some? ==> password == old(password)
    {
      error := None;
      if "password" in modified && !StartsWith(password, HASHED_MARK) {
        if password == "" {
          error := Some(EMPTY_PASSWORD_ERROR);
          return;
        }
        password := Bcrypt.Hash(password, salt);
      }
    }

    /** The second pre-save hook: hash a modified, non-empty, unhashed PIN; anything but four digits is refused. */
    method PreSavePin(salt: Bcrypt.Salt) returns (error: Option<string>)
      modifies this`pin
      ensures error == PinHookError(old(Snapshot()), modified)
      ensures error.None? ==> pin == Hooked(old(Snapshot()), modified, salt, salt).pin
      ensures error.Some? ==> pin == old(pin)
    {
      error := None;
      if "pin" in modified && Truthy(pin) && !StartsWith(pin.value, HASHED_MARK) {
        if !IsFourDigits(pin.value) {
          error := Some(PIN_FORMAT_ERROR);
          return;
        }
        pin := Some(Bcrypt.Hash(pin.value, salt));
      }
    }

    /**
     * `save(options)`: validation of `PathsToValidate` first, then the password hook, then the pin
     * hook. Only a save that gets through all three stores the hooked record; the modified paths
     * then count as loaded ones.
     */
    method Save(passwordSalt: Bcrypt.Salt, pinSalt: Bcrypt.Salt, validateModifiedOnly: bool) returns (outcome: SaveOutcome)
      modifies this
      ensures var errors := ValidationErrors(old(Snapshot()), PathsToValidate(old(modified), old(loaded), validateModifiedOnly));
        errors != [] ==>
          outcome == Invalid(errors) && Snapshot() == old(Snapshot()) && modified == old(modified)
          && loaded == old(loaded)
      ensures ValidationErrors(old(Snapshot()), PathsToValidate(old(modified), old(loaded), validateModifiedOnly)) == [] ==>
        outcome == Saved && modified == {} && loaded == old(loaded) + old(modified)
        && Snapshot() == Hooked(old(Snapshot()), old(modified), passwordSalt, pinSalt)
    {
      var validated := PathsToValidate(modified, loaded, validateModifiedOnly);
      var errors := ValidationErrors(Snapshot(), validated);
      if errors != [] {
        return Invalid(errors);
      }
      HooksCannotFailAfterValidation(Snapshot(), modified, validated);
      var passwordError := PreSavePassword(passwordSalt);
      var pinError := PreSavePin(pinSalt);
      loaded := loaded + modified;
      modified := {};
      outcome := Saved;
    }

    /** `updateAccess`: one more access, recorded directly in the store without a save. */
    method UpdateAccess()
      modifies this`accessCount
      ensures accessCount == old(accessCount) + 1
    {
      accessCount := accessCount + 1;
    }
  }
}
