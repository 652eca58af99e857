/**
 * The vault dashboard: loading the user's rows with decrypt-or-raw fallback, search and
 * category filtering, the record written on save, and PIN-gated deletion.
 */
module Dashboard {
  import opened Wrappers
  import opened Text
  import opened Encryption
  import opened VaultItem

  /** A row of the `passwords` table; the password column holds an envelope or legacy plaintext. */
  datatype Row = Row(
    id: string,
    userId: string,
    title: string,
    username: string,
    password: string,
    website: string,
    category: string,
    notes: string,
    pin: Option<string>,
    isActive: bool,
    accessCount: int,
    createdAt: Option<string>,
    updatedAt: Option<string>)

  /** The object `handleSavePassword` writes (`dbData`). */
  datatype DbRecord = DbRecord(
    userId: string,
    title: string,
    username: string,
    password: string,
    website: string,
    category: string,
    notes: string,
    pin: Option<string>,
    isActive: bool,
    accessCount: int)

  // ---------------------------------------------------------------------------
  // Loading.
  // ---------------------------------------------------------------------------

  /** One row mapped for display: the password decrypted when that succeeds, the raw value otherwise. */
  function LoadItem(key: string, row: Row): (item: Item)
    ensures item.id == row.id && item.title == row.title && item.username == row.username
    ensures item.website == row.website && item.category == row.category && item.notes == row.notes
    ensures item.createdAt == row.createdAt && item.updatedAt == row.updatedAt
    ensures item.pin == row.pin
    ensures DecryptPassword(key, row.password).Success? ==> item.password == DecryptPassword(key, row.password).value
    ensures DecryptPassword(key, row.password).Failure? ==> item.password == row.password
  {
    var shown := match DecryptPassword(key, row.password)
      case Success(plain) => plain
      case Failure(_) => row.password;
    Item(row.id, row.title, row.username, shown, row.website, row.category, row.notes,
         row.pin, row.createdAt, row.updatedAt)
  }

  /** The query of `fetchPasswords`: this user's active rows, in table order (newest first). */
  function ActiveRows(db: seq<Row>, userId: string): (r: seq<Row>)
    ensures forall row | row in r :: row in db && row.userId == userId && row.isActive
    ensures forall row | row in db && row.userId == userId && row.isActive :: row in r
    ensures SubsequenceOf(r, db)
  {
    if db == [] then []
    else if db[0].userId == userId && db[0].isActive then [db[0]] + ActiveRows(db[1..], userId)
    else ActiveRows(db[1..], userId)
  }

  /** `(data || []).map(...)`: one item per row, in order. */
  function LoadItems(key: string, rows: seq<Row>): (items: seq<Item>)
    ensures |items| == |rows|
    ensures forall i | 0 <= i < |rows| :: items[i] == LoadItem(key, rows[i])
  {
    seq(|rows|, i requires 0 <= i < |rows| => LoadItem(key, rows[i]))
  }

  /** A row saved through EncryptPassword loads with its original non-empty password. */
  lemma LoadDecryptsEnvelope(key: string, row: Row, plain: string, salt: Salt)
    requires plain != "" && row.password == EncryptPassword(key, plain, salt)
    ensures LoadItem(key, row).password == plain
  {
    RoundTrip(key, plain, salt);
  }

  /** A legacy plaintext password, too short to be an envelope, is shown as stored. */
  lemma LoadKeepsLegacyPassword(key: string, row: Row)
    requires |row.password| < HEADER_LENGTH
    ensures LoadItem(key, row).password == row.password
  {
  }

  // ---------------------------------------------------------------------------
  // Filtering.
  // ---------------------------------------------------------------------------

  /** `xs` is `ys` with some elements left out, the rest in their original order. */
  ghost predicate SubsequenceOf<T>(xs: seq<T>, ys: seq<T>)
    decreases |ys|
  {
    if xs == [] then true
    else if ys == [] then false
    else (xs[0] == ys[0] && SubsequenceOf(xs[1..], ys[1..])) || SubsequenceOf(xs, ys[1..])
  }

  lemma {:induction false} SubsequenceReflexive<T>(xs: seq<T>)
    ensures SubsequenceOf(xs, xs)
    decreases |xs|
  {
    if xs != [] {
      SubsequenceReflexive(xs[1..]);
    }
  }

  lemma {:induction false} SubsequenceTransitive<T>(a: seq<T>, b: seq<T>, c: seq<T>)
    requires SubsequenceOf(a, b) && SubsequenceOf(b, c)
    ensures SubsequenceOf(a, c)
    decreases |c|
  {
    if a != [] {
      assert b != [] && c != [];
      if SubsequenceOf(b, c[1..]) {
        SubsequenceTransitive(a, b, c[1..]);
      } else {
        assert b[0] == c[0] && SubsequenceOf(b[1..], c[1..]);
        if a[0] == b[0] && SubsequenceOf(a[1..], b[1..]) {
          SubsequenceTransitive(a[1..], b[1..], c[1..]);
        } else {
          SubsequenceTransitive(a, b[1..], c[1..]);
        }
      }
    }
  }

  /** The search test: the term occurs, ignoring ASCII case, in the title, website or username. */
  predicate SearchMatch(item: Item, term: string) {
    var t := Lower(term);
    Contains(Lower(item.title), t) || Contains(Lower(item.website), t) || Contains(Lower(item.username), t)
  }

  /** The empty search term occurs in every item. */
  lemma EmptyTermMatchesAll(items: seq<Item>)
    ensures forall x | x in items :: SearchMatch(x, "")
  {
    forall x | x in items ensures SearchMatch(x, "") {
      assert OccursAt(Lower(x.title), Lower(""), 0);
    }
  }

  function FilterBySearch(items: seq<Item>, term: string): (r: seq<Item>)
    ensures SubsequenceOf(r, items)
    ensures forall x | x in r :: x in items && SearchMatch(x, term)
    ensures forall x | x in items && SearchMatch(x, term) :: x in r
  {
    if items == [] then []
    else
      var rest := FilterBySearch(items[1..], term);
      if SearchMatch(items[0], term) then [items[0]] + rest else rest
  }

  function FilterByCategory(items: seq<Item>, category: string): (r: seq<Item>)
    ensures SubsequenceOf(r, items)
    ensures forall x | x in r :: x in items && x.category == category
    ensures forall x | x in items && x.category == category :: x in r
    ensures |r| <= |items|
  {
    if items == [] then []
    else
      var rest := FilterByCategory(items[1..], category);
      if items[0].category == category then [items[0]] + rest else rest
  }

  /** What `filterPasswords` keeps. */
  predicate Kept(item: Item, searchTerm: string, selectedCategory: string) {
    SearchMatch(item, searchTerm) && (selectedCategory == "all" || item.category == selectedCategory)
  }

  /**
   * `filterPasswords`: the search filter (skipped for an empty term), then the category
   * filter (skipped for 'all'). The result is exactly the kept items, in their order.
   */
  function FilterPasswords(items: seq<Item>, searchTerm: string, selectedCategory: string): (r: seq<Item>)
    ensures SubsequenceOf(r, items)
    ensures forall x | x in r :: Kept(x, searchTerm, selectedCategory)
    ensures forall x | x in items && Kept(x, searchTerm, selectedCategory) :: x in r
    ensures searchTerm == "" && selectedCategory == "all" ==> r == items
  {
    var searched := if searchTerm != "" then FilterBySearch(items, searchTerm) else items;
    SubsequenceReflexive(items);
    EmptyTermMatchesAll(items);
    if selectedCategory != "all" then
      var r := FilterByCategory(searched, selectedCategory);
      SubsequenceTransitive(r, searched, items);
      r
    else searched
  }

  // ---------------------------------------------------------------------------
  // Saving.
  // ---------------------------------------------------------------------------

  /**
   * `dbData` of `handleSavePassword`: the password always encrypted, the PIN encrypted when
   * given and null otherwise, the row active with an access count of 0.
   */
  function SaveRecord(key: string, userId: string, data: Form, passwordSalt: Salt, pinSalt: Salt): (rec: DbRecord)
    ensures rec.userId == userId && rec.title == data.title && rec.username == data.username
    ensures rec.website == data.website && rec.category == data.category && rec.notes == data.notes
    ensures AesDecrypt(key, rec.password) == Some(data.password)
    ensures data.password != "" ==> DecryptPassword(key, rec.password) == Success(data.password)
    ensures rec.pin.Some? <==> Truthy(data.pin)
    ensures Truthy(data.pin) ==> DecryptPin(key, rec.pin.value) == Success(data.pin.value)
    ensures Truthy(data.pin) ==> forall c :: VerifyPin(key, c, rec.pin.value) <==> c == data.pin.value
    ensures rec.isActive && rec.accessCount == 0
  {
    PinEnvelopeAcceptsOnlyPin(key, if Truthy(data.pin) then data.pin.value else "", pinSalt);
    DbRecord(userId, data.title, data.username, EncryptPassword(key, data.password, passwordSalt),
             data.website, data.category, data.notes,
             if Truthy(data.pin) then Some(EncryptPin(key, data.pin.value, pinSalt)) else None,
             true, 0)
  }

  /** The row an insert of `rec` creates. */
  function NewRow(id: string, rec: DbRecord, createdAt: string): Row {
    Row(id, rec.userId, rec.title, rec.username, rec.password, rec.website, rec.category, rec.notes,
        rec.pin, rec.isActive, rec.accessCount, Some(createdAt), None)
  }

  /** `.update(dbData).eq('id', id).eq('user_id', userId)`. */
  function UpdateRows(db: seq<Row>, id: string, userId: string, rec: DbRecord): (r: seq<Row>)
    ensures |r| == |db|
    ensures forall i | 0 <= i < |db| :: if db[i].id == id && db[i].userId == userId
      then r[i] == NewRow(id, rec, "").(createdAt := db[i].createdAt, updatedAt := db[i].updatedAt)
      else r[i] == db[i]
  {
    seq(|db|, i requires 0 <= i < |db| =>
      if db[i].id == id && db[i].userId == userId
      then NewRow(id, rec, "").(createdAt := db[i].createdAt, updatedAt := db[i].updatedAt)
      else db[i])
  }

  /** `.delete().eq('id', id).eq('user_id', userId)`: a hard delete. */
  function DeleteRows(db: seq<Row>, id: string, userId: string): (r: seq<Row>)
    ensures forall row | row in r :: row in db && !(row.id == id && row.userId == userId)
    ensures forall row | row in db && !(row.id == id && row.userId == userId) :: row in r
  {
    if db == [] then []
    else if db[0].id == id && db[0].userId == userId then DeleteRows(db[1..], id, userId)
    else [db[0]] + DeleteRows(db[1..], id, userId)
  }

  /** The write of `handleSavePassword`: update the edited row, or insert a new row in front. */
  function StoreRecord(db: seq<Row>, editing: Option<Item>, userId: string, rec: DbRecord,
                       newId: string, createdAt: string): seq<Row>
  {
    if editing.Some? then UpdateRows(db, editing.value.id, userId, rec)
    else [NewRow(newId, rec, createdAt)] + db
  }

  const LOGIN_REQUIRED := "Please log in to save passwords"
  // Long messages are written as two literals so that Dafny can index their short first part,
  // which is what proves the messages distinct.
  const TABLE_MISSING_ALERT := "Database table not found. " + "Please run the SQL script from README.md in your Supabase SQL Editor."
  const AUTH_ALERT := "Authentication error. " + "Please check your Supabase configuration."
  const POLICY_ALERT := "Permission denied. " + "Please check your Row Level Security policies in Supabase."
  const SAVE_FAILED_PREFIX := "Failed to save password: "
  const FALLBACK_REASON := "Please try again."
  const TABLE_MISSING_TEXT := "relation \"passwords\" does not exist"
  const JWT_TEXT := "JWT"
  const POLICY_TEXT := "violates row-level security policy"

  /** The error a failed database write reports; its `message` may be missing. */
  datatype StoreError = StoreError(message: Option<string>)

  /**
   * The alert after a failed save: a missing table, an authentication problem and a refused
   * row-level policy each have their own text, checked in that order; anything else is
   * reported with its message, or with a stock reason when it has none.
   */
  function SaveErrorAlert(message: Option<string>): (alert: string)
    ensures alert == TABLE_MISSING_ALERT <==> Mentions(message, TABLE_MISSING_TEXT)
    ensures alert == AUTH_ALERT <==> !Mentions(message, TABLE_MISSING_TEXT) && Mentions(message, JWT_TEXT)
    ensures alert == POLICY_ALERT <==>
      !Mentions(message, TABLE_MISSING_TEXT) && !Mentions(message, JWT_TEXT) && Mentions(message, POLICY_TEXT)
    ensures StartsWith(alert, SAVE_FAILED_PREFIX) <==>
      !Mentions(message, TABLE_MISSING_TEXT) && !Mentions(message, JWT_TEXT) && !Mentions(message, POLICY_TEXT)
    ensures StartsWith(alert, SAVE_FAILED_PREFIX) ==>
      alert[|SAVE_FAILED_PREFIX|..] == (if Truthy(message) then message.value else FALLBACK_REASON)
  {
    AlertsDistinct();
    if Mentions(message, TABLE_MISSING_TEXT) then TABLE_MISSING_ALERT
    else if Mentions(message, JWT_TEXT) then AUTH_ALERT
    else if Mentions(message, POLICY_TEXT) then POLICY_ALERT
    else SAVE_FAILED_PREFIX + (if Truthy(message) then message.value else FALLBACK_REASON)
  }

  /** `error.message?.includes(text)`: false when the error has no message. */
  predicate Mentions(message: Option<string>, text: string) {
    message.Some? && Contains(message.value, text)
  }

  /** The four kinds of alert begin differently, so none can be taken for another. */
  lemma AlertsDistinct()
    ensures TABLE_MISSING_ALERT != AUTH_ALERT && TABLE_MISSING_ALERT != POLICY_ALERT && AUTH_ALERT != POLICY_ALERT
    ensures !StartsWith(TABLE_MISSING_ALERT, SAVE_FAILED_PREFIX) && !StartsWith(AUTH_ALERT, SAVE_FAILED_PREFIX)
    ensures !StartsWith(POLICY_ALERT, SAVE_FAILED_PREFIX)
  {
    assert TABLE_MISSING_ALERT[0] == 'D' && AUTH_ALERT[0] == 'A' && POLICY_ALERT[0] == 'P';
    assert SAVE_FAILED_PREFIX[0] == 'F';
    assert TABLE_MISSING_ALERT[..|SAVE_FAILED_PREFIX|][0] == 'D';
    assert AUTH_ALERT[..|SAVE_FAILED_PREFIX|][0] == 'A';
    assert POLICY_ALERT[..|SAVE_FAILED_PREFIX|][0] == 'P';
  }

  /** `passwords.find(p => p.id === id)`. */
  function FindById(items: seq<Item>, id: string): (r: Option<Item>)
    ensures r.Some? ==> r.value in items && r.value.id == id
    ensures r.None? ==> forall x | x in items :: x.id != id
  {
    if items == [] then None
    else if items[0].id == id then Some(items[0])
    else FindById(items[1..], id)
  }

  // ---------------------------------------------------------------------------
  // Finding: editing a PIN-protected item encrypts its PIN envelope a second time.
  // ---------------------------------------------------------------------------

  /**
   * As written: the loaded item keeps its PIN envelope, the edit form carries it unchanged,
   * and SaveRecord encrypts the envelope again. Afterwards the user's PIN no longer matches;
   * only the old envelope text would, and that is longer than the four digits the PIN pad accepts.
   */
  lemma EditSaveLocksItem(key: string, userId: string, row: Row, pin: string, s0: Salt, s1: Salt, s2: Salt)
    requires pin != "" && row.pin == Some(EncryptPin(key, pin, s0))
    ensures var rec := SaveRecord(key, userId, FormOf(LoadItem(key, row)), s1, s2);
      rec.pin.Some? && !VerifyPin(key, pin, rec.pin.value)
      && VerifyPin(key, EncryptPin(key, pin, s0), rec.pin.value)
      && |EncryptPin(key, pin, s0)| > 4
  {
    var envelope := EncryptPin(key, pin, s0);
    assert |envelope| == HEADER_LENGTH + |pin|;
    var rec := SaveRecord(key, userId, FormOf(LoadItem(key, row)), s1, s2);
    assert Truthy(FormOf(LoadItem(key, row)).pin);
    assert DecryptPin(key, rec.pin.value) == Success(envelope);
  }

  /** Corrected: a PIN that already decrypts is stored as it is; any other PIN is encrypted. */
  function SaveRecordKeepingPin(key: string, userId: string, data: Form, passwordSalt: Salt, pinSalt: Salt): (rec: DbRecord)
    ensures rec.pin.Some? <==> Truthy(data.pin)
    ensures Truthy(data.pin) && DecryptPin(key, data.pin.value).Failure? ==>
      DecryptPin(key, rec.pin.value) == Success(data.pin.value)
    ensures Truthy(data.pin) && DecryptPin(key, data.pin.value).Success? ==> rec.pin == data.pin
    ensures rec.(pin := None) == SaveRecord(key, userId, data, passwordSalt, pinSalt).(pin := None)
  {
    var asWritten := SaveRecord(key, userId, data, passwordSalt, pinSalt);
    if Truthy(data.pin) && DecryptPin(key, data.pin.value).Success? then asWritten.(pin := data.pin)
    else asWritten
  }

  /** With the correction, the user's own PIN still unlocks an item after it is edited. */
  lemma EditSaveKeepsPin(key: string, userId: string, row: Row, pin: string, candidate: string,
                         s0: Salt, s1: Salt, s2: Salt)
    requires pin != "" && row.pin == Some(EncryptPin(key, pin, s0))
    ensures var rec := SaveRecordKeepingPin(key, userId, FormOf(LoadItem(key, row)), s1, s2);
      rec.pin.Some? && (VerifyPin(key, candidate, rec.pin.value) <==> candidate == pin)
  {
    VerifyEncryptedPin(key, pin, candidate, s0);
    RoundTrip(key, pin, s0);
  }

  /** For a new PIN typed on the four-slot pad, the correction changes nothing. */
  lemma KeepingPinAgreesOnNewPins(key: string, userId: string, data: Form, s1: Salt, s2: Salt)
    requires data.pin.Some? && |data.pin.value| == 4
    ensures SaveRecordKeepingPin(key, userId, data, s1, s2) == SaveRecord(key, userId, data, s1, s2)
  {
  }

  // ---------------------------------------------------------------------------
  // The component's state and handlers.
  // ---------------------------------------------------------------------------

  class DashboardState {
    const key: string
    const userId: Option<string>
    /** The `passwords` table (the store behind Supabase), newest row first. */
    var db: seq<Row>
    var passwords: seq<Item>
    var filteredPasswords: seq<Item>
    var searchTerm: string
    var selectedCategory: string
    var isModalOpen: bool
    var editingPassword: Option<Item>
    var deletingPasswordId: Option<string>
    var showDeletePinModal: bool

    /** What the last fetch and the filter effect leave in place. */
    ghost predicate Valid()
      reads this`db, this`passwords, this`filteredPasswords, this`searchTerm, this`selectedCategory
    {
      && passwords == (if userId.Some? then LoadItems(key, ActiveRows(db, userId.value)) else [])
      && filteredPasswords == FilterPasswords(passwords, searchTerm, selectedCategory)
    }

    /** Mounting: initial state, then `fetchPasswords` and the filter effect. */
    constructor (key: string, userId: Option<string>, db: seq<Row>)
      ensures Valid()
      ensures this.key == key && this.userId == userId && this.db == db
      ensures searchTerm == "" && selectedCategory == "all"
      ensures !isModalOpen && editingPassword.None? && deletingPasswordId.None? && !showDeletePinModal
    {
      this.key := key;
      this.userId := userId;
      this.db := db;
      passwords := if userId.Some? then LoadItems(key, ActiveRows(db, userId.value)) else [];
      searchTerm := "";
      selectedCategory := "all";
      filteredPasswords := FilterPasswords(if userId.Some? then LoadItems(key, ActiveRows(db, userId.value)) else [], "", "all");
      isModalOpen := false;
      editingPassword := None;
      deletingPasswordId := None;
      showDeletePinModal := false;
    }

    /** `fetchPasswords` followed by the filter effect. */
    method Refresh()
      requires userId.None? ==> passwords == []
      modifies this`passwords, this`filteredPasswords
      ensures Valid()
    {
      if userId.Some? {
        passwords := LoadItems(key, ActiveRows(db, userId.value));
      }
      filteredPasswords := FilterPasswords(passwords, searchTerm, selectedCategory);
    }

    method SetSearchTerm(term: string)
      requires Valid()
      modifies this`searchTerm, this`filteredPasswords
      ensures Valid() && searchTerm == term
      ensures filteredPasswords == FilterPasswords(passwords, term, selectedCategory)
    {
      searchTerm := term;
      filteredPasswords := FilterPasswords(passwords, searchTerm, selectedCategory);
    }

    method SetSelectedCategory(category: string)
      requires Valid()
      modifies this`selectedCategory, this`filteredPasswords
      ensures Valid() && selectedCategory == category
      ensures filteredPasswords == FilterPasswords(passwords, searchTerm, category)
    {
      selectedCategory := category;
      filteredPasswords := FilterPasswords(passwords, searchTerm, selectedCategory);
    }

    /** `executeDelete`: hard-delete the row, then re-fetch. */
    method ExecuteDelete(id: string)
      requires Valid()
      modifies this`db, this`passwords, this`filteredPasswords
      ensures Valid()
      ensures db == if userId.Some? then DeleteRows(old(db), id, userId.value) else old(db)
    {
      if userId.None? {
        return;
      }
      db := DeleteRows(db, id, userId.value);
      Refresh();
    }

    /**
     * `handleDeletePassword`: an item with a PIN only opens the PIN prompt; an item without
     * one is deleted when the user confirms (`confirmed` is the answer to `window.confirm`).
     */
    method HandleDeletePassword(id: string, confirmed: bool)
      requires Valid()
      modifies this`db, this`passwords, this`filteredPasswords, this`deletingPasswordId, this`showDeletePinModal
      ensures Valid()
      ensures var target := FindById(old(passwords), id);
        if target.None? then
          db == old(db) && deletingPasswordId == old(deletingPasswordId) && showDeletePinModal == old(showDeletePinModal)
        else if HasPin(target.value) then
          db == old(db) && deletingPasswordId == Some(id) && showDeletePinModal
        else
          db == (if confirmed && userId.Some? then DeleteRows(old(db), id, userId.value) else old(db))
          && deletingPasswordId == old(deletingPasswordId) && showDeletePinModal == old(showDeletePinModal)
    {
      var target := FindById(passwords, id);
      if target.None? {
        return;
      }
      if HasPin(target.value) {
        deletingPasswordId := Some(id);
        showDeletePinModal := true;
      } else if confirmed {
        ExecuteDelete(id);
      }
    }

    /**
     * `handleVerifyDeletePin`: the pending item is deleted only when `verifyPin` accepts the
     * entered PIN against its stored PIN; a wrong PIN leaves everything as it was.
     */
    method HandleVerifyDeletePin(pin: string)
      requires Valid()
      modifies this`db, this`passwords, this`filteredPasswords, this`deletingPasswordId, this`showDeletePinModal
      ensures Valid()
      ensures var pending := old(deletingPasswordId);
        var target := if Truthy(pending) then FindById(old(passwords), pending.value) else None;
        if !Truthy(pending) then
          db == old(db) && deletingPasswordId == pending && showDeletePinModal == old(showDeletePinModal)
        else if target.None? || !HasPin(target.value) then
          db == old(db) && deletingPasswordId.None? && !showDeletePinModal
        else if VerifyPin(key, pin, target.value.pin.value) then
          db == (if userId.Some? then DeleteRows(old(db), pending.value, userId.value) else old(db))
          && deletingPasswordId.None? && !showDeletePinModal
        else
          db == old(db) && deletingPasswordId == pending && showDeletePinModal == old(showDeletePinModal)
    {
      if !Truthy(deletingPasswordId) {
        return;
      }
      var id := deletingPasswordId.value;
      var target := FindById(passwords, id);
      if target.None? || !HasPin(target.value) {
        showDeletePinModal := false;
        deletingPasswordId := None;
        return;
      }
      if VerifyPin(key, pin, target.value.pin.value) {
        showDeletePinModal := false;
        ExecuteDelete(id);
        deletingPasswordId := None;
      }
    }

    /** The delete PIN modal's `onClose`. */
    method CloseDeletePinModal()
      modifies this`showDeletePinModal, this`deletingPasswordId
      ensures !showDeletePinModal && deletingPasswordId.None?
    {
      showDeletePinModal := false;
      deletingPasswordId := None;
    }

    /**
     * `handleSavePassword`: without a signed-in user only the log-in alert is shown. Otherwise
     * SaveRecord is written, updating the row being edited or inserting a new row (`newId`,
     * `createdAt` are what the database assigns); `failure` is the error the database reports,
     * which leaves everything in place and shows the classified alert; success re-fetches and
     * stops editing.
     */
    method HandleSavePassword(data: Form, passwordSalt: Salt, pinSalt: Salt, newId: string, createdAt: string,
                              failure: Option<StoreError>) returns (alert: Option<string>)
      requires Valid()
      modifies this`db, this`passwords, this`filteredPasswords, this`editingPassword
      ensures Valid()
      ensures userId.None? ==> db == old(db) && editingPassword == old(editingPassword) && alert == Some(LOGIN_REQUIRED)
      ensures userId.Some? && failure.Some? ==>
        db == old(db) && editingPassword == old(editingPassword) && alert == Some(SaveErrorAlert(failure.value.message))
      ensures userId.Some? && failure.None? ==> (alert.None? && editingPassword.None? && db == StoreRecord(old(db), old(editingPassword), userId.value,
        SaveRecord(key, userId.value, data, passwordSalt, pinSalt), newId, createdAt))
    {
      if userId.None? {
        return Some(LOGIN_REQUIRED);
      }
      if failure.Some? {
        return Some(SaveErrorAlert(failure.value.message));
      }
      WriteAndRefresh(SaveRecord(key, userId.value, data, passwordSalt, pinSalt), newId, createdAt);
      editingPassword := None;
      alert := None;
    }

    /** The update or insert of a successful save, followed by `fetchPasswords`. */
    method WriteAndRefresh(rec: DbRecord, newId: string, createdAt: string)
      requires Valid() && userId.Some?
      modifies this`db, this`passwords, this`filteredPasswords
      ensures Valid()
      ensures db == StoreRecord(old(db), editingPassword, userId.value, rec, newId, createdAt)
    {
      db := StoreRecord(db, editingPassword, userId.value, rec, newId, createdAt);
      Refresh();
    }

    method HandleEditPassword(item: Item)
      modifies this`editingPassword, this`isModalOpen
      ensures editingPassword == Some(item) && isModalOpen
    {
      editingPassword := Some(item);
      isModalOpen := true;
    }

    method HandleAddPassword()
      modifies this`editingPassword, this`isModalOpen
      ensures editingPassword.None? && isModalOpen
    {
      editingPassword := None;
      isModalOpen := true;
    }

    /** The password modal's `onClose`. */
    method CloseModal()
      modifies this`editingPassword, this`isModalOpen
      ensures editingPassword.None? && !isModalOpen
    {
      isModalOpen := false;
      editingPassword := None;
    }
  }
}
