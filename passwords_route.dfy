/**
 * The `/api/passwords` handlers: listing with pagination, create, verify-pin, update and soft
 * delete, over a store of entry records keyed by id. The signed-in user is a parameter.
 */
module PasswordsRoute {
  import opened Wrappers
  import opened Text
  import opened PasswordModel
  import Bcrypt

  datatype Response = Response(status: int, message: string)

  /** The request body fields; `None` is an absent (`undefined`) field. */
  datatype Body = Body(
    title: Option<string>,
    username: Option<string>,
    password: Option<string>,
    website: Option<string>,
    category: Option<string>,
    notes: Option<string>,
    pin: Option<string>)

  type Store = map<string, Record>

  const MISSING_FIELDS := "Missing required fields: title, username, password, website"
  const INVALID_CATEGORY := "Invalid category. Must be one of: social, work, finance, entertainment, other"
  const NOT_FOUND := "Password not found"
  const VALIDATION_FAILED := "Validation failed"
  const CREATED := "Password created successfully"
  const CREATE_FAILED := "Failed to create password"
  const UPDATED := "Password updated successfully"
  const UPDATE_FAILED := "Failed to update password"
  const DELETED := "Password deleted successfully"
  const DELETE_FAILED := "Failed to delete password"
  const PIN_REQUIRED := "PIN is required"
  const NO_PIN := "No PIN set for this password"
  const INCORRECT_PIN := "Incorrect PIN"
  const PIN_VERIFIED := "PIN verified successfully"

  // ---------------------------------------------------------------- reads

  /** The `findOne({ _id, userId, isActive: true })` every handler starts from. */
  function FindActive(store: Store, userId: string, id: string): (r: Option<Record>)
    ensures r.Some? <==> id in store && store[id].userId == userId && store[id].isActive
    ensures r.Some? ==> r.value == store[id]
  {
    if id in store && store[id].userId == userId && store[id].isActive then Some(store[id]) else None
  }

  /** The listing query without its search: the user's active entries, of one category unless `all` or none is asked for. */
  function Listed(store: Store, userId: string, category: Option<string>): (ids: set<string>)
    ensures forall id | id in ids :: id in store && store[id].userId == userId && store[id].isActive
    ensures forall id | id in ids :: Truthy(category) && category.value != "all" ==> store[id].category == category.value
    ensures forall id | id in store && store[id].userId == userId && store[id].isActive
                        && (!Truthy(category) || category.value == "all" || store[id].category == category.value) :: id in ids
  {
    set id | id in store && store[id].userId == userId && store[id].isActive
                       && (!Truthy(category) || category.value == "all" || store[id].category == category.value)
  }

  /** Without a category filter the listing holds exactly the entries the single-entry handlers find. */
  lemma ListedIsFindActive(store: Store, userId: string, id: string, category: Option<string>)
    requires !Truthy(category) || category.value == "all"
    ensures id in Listed(store, userId, category) <==> FindActive(store, userId, id).Some?
  {
  }

  /** `(page - 1) * limit` documents are skipped. */
  function Skip(page: int, limit: int): (skipped: int)
    ensures page >= 1 && limit >= 0 ==> skipped >= 0
    ensures page == 1 ==> skipped == 0
  {
    (page - 1) * limit
  }

  /**
   * `Math.ceil(total / limit)`; a zero limit gives a non-finite number, modelled as `None`.
   * For a negative limit the quotient is negative and is rounded towards zero.
   */
  function Pages(total: nat, limit: int): (pages: Option<int>)
    ensures limit == 0 <==> pages.None?
    ensures limit > 0 ==> pages.value >= 0 && (total == 0 <==> pages.value == 0)
    ensures limit > 0 && total > 0 ==> (pages.value - 1) * limit < total <= pages.value * limit
  {
    if limit == 0 then None
    else if limit > 0 then Some((total + limit - 1) / limit)
    else Some(-(total / -limit))
  }

  /** With a positive limit, page `p` (counted from 1) starts inside the result set exactly when `p` is at most the page count. */
  lemma PagesCoverResults(total: nat, limit: int, page: int)
    requires limit > 0 && page >= 1
    ensures Skip(page, limit) < total <==> page <= Pages(total, limit).value
  {
    var pages := Pages(total, limit).value;
    if page <= pages {
      assert (page - 1) * limit <= (pages - 1) * limit by {
        MultiplyMonotone(page - 1, pages - 1, limit);
      }
    } else {
      assert pages * limit <= (page - 1) * limit by {
        MultiplyMonotone(pages, page - 1, limit);
      }
    }
  }

  lemma MultiplyMonotone(a: int, b: int, c: nat)
    requires a <= b
    ensures a * c <= b * c
  {
  }

  /**
   * GET `/:id`: a missing entry gives 404; a found one is answered as it was read, while the
   * store records one more access (`updateOne` does not touch the document already in hand).
   */
  method GetEntry(store: Store, userId: string, id: string) returns (status: int, entry: Option<Record>, store': Store)
    ensures FindActive(store, userId, id).None? ==> status == 404 && entry.None? && store' == store
    ensures FindActive(store, userId, id).Some? ==>
      status == 200 && entry == Some(store[id])
      && store' == store[id := store[id].(accessCount := store[id].accessCount + 1)]
  {
    var found := FindActive(store, userId, id);
    if found.None? {
      return 404, None, store;
    }
    var doc := new PasswordDocument.Load(found.value);
    doc.UpdateAccess();
    status, entry, store' := 200, found, store[id := doc.Snapshot()];
  }

  // ---------------------------------------------------------------- create

  /** The POST checks before anything is stored: the four required fields, then the category. */
  function CheckCreate(body: Body): (error: Option<Response>)
    ensures error.Some? ==> error.value.status == 400
    ensures (!Truthy(body.title) || !Truthy(body.username) || !Truthy(body.password) || !Truthy(body.website))
            ==> error == Some(Response(400, MISSING_FIELDS))
    ensures error.None? <==>
      Truthy(body.title) && Truthy(body.username) && Truthy(body.password) && Truthy(body.website)
      && (!Truthy(body.category) || body.category.value in CATEGORY_ENUM)
  {
    if !Truthy(body.title) || !Truthy(body.username) || !Truthy(body.password) || !Truthy(body.website) then
      Some(Response(400, MISSING_FIELDS))
    else if Truthy(body.category) && body.category.value !in CATEGORY_ENUM then
      Some(Response(400, INVALID_CATEGORY))
    else None
  }

  /**
   * The new entry's fields: title, username, website and notes trimmed, password and PIN as sent,
   * a missing category `other`, missing notes empty, and an empty PIN left out.
   */
  function NewEntry(userId: string, body: Body): (r: Record)
    requires CheckCreate(body).None?
    ensures r.userId == userId && r.isActive && r.accessCount == 0
    ensures r.title == Trim(body.title.value) && r.username == Trim(body.username.value)
    ensures r.website == Trim(body.website.value) && r.password == body.password.value
    ensures r.category == (if Truthy(body.category) then body.category.value else "other")
    ensures r.category in CATEGORY_ENUM
    ensures r.notes == (if body.notes.Some? then Trim(body.notes.value) else "")
    ensures r.pin == (if Truthy(body.pin) then body.pin else None)
  {
    Record(userId, Trim(body.title.value), Trim(body.username.value), body.password.value,
           Trim(body.website.value), if Truthy(body.category) then body.category.value else "other",
           if body.notes.Some? then Trim(body.notes.value) else "",
           if Truthy(body.pin) then body.pin else None, true, 0)
  }

  /** The message of a failed save: 400 with the validation errors, 500 otherwise. */
  function SaveFailure(outcome: SaveOutcome, failed: string): (r: Response)
    ensures r.status == 400 <==> outcome.Invalid?
    ensures outcome.Invalid? ==> r.message == VALIDATION_FAILED
    ensures !outcome.Invalid? ==> r == Response(500, failed)
  {
    if outcome.Invalid? then Response(400, VALIDATION_FAILED) else Response(500, failed)
  }

  /** POST `/`: the new entry is stored under `newId` only when the checks and the save succeed. */
  method CreateEntry(store: Store, userId: string, body: Body, newId: string,
                passwordSalt: Bcrypt.Salt, pinSalt: Bcrypt.Salt) returns (response: Response, store': Store)
    requires newId !in store
    ensures CheckCreate(body).Some? ==> response == CheckCreate(body).value && store' == store
    ensures CheckCreate(body).None? ==>
      var r := NewEntry(userId, body);
      (ValidationErrors(r, ALL_PATHS) == [] ==>
         response == Response(201, CREATED) && store' == store[newId := Hooked(r, ALL_PATHS, passwordSalt, pinSalt)])
      && (ValidationErrors(r, ALL_PATHS) != [] ==> response == Response(400, VALIDATION_FAILED) && store' == store)
  {
    var error := CheckCreate(body);
    if error.Some? {
      return error.value, store;
    }
    var r := NewEntry(userId, body);
    var doc := new PasswordDocument.Create(r.userId, r.title, r.username, r.password, r.website, r.category, r.notes, r.pin);
    assert PathsToValidate(doc.modified, doc.loaded, false) == ALL_PATHS;
    var outcome := doc.Save(passwordSalt, pinSalt, false);
    if outcome != Saved {
      return SaveFailure(outcome, CREATE_FAILED), store;
    }
    response, store' := Response(201, CREATED), store[newId := doc.Snapshot()];
  }

  // ---------------------------------------------------------------- verify-pin

  /**
   * POST `/:id/verify-pin`: a missing PIN, then a missing entry, then an entry without PIN, then a
   * wrong PIN, each stop the request; only a PIN that matches records an access.
   */
  method VerifyPin(store: Store, userId: string, id: string, pin: Option<string>) returns (response: Response, store': Store)
    ensures !Truthy(pin) ==> response == Response(400, PIN_REQUIRED) && store' == store
    ensures Truthy(pin) && FindActive(store, userId, id).None? ==> response == Response(404, NOT_FOUND) && store' == store
    ensures Truthy(pin) && FindActive(store, userId, id).Some? && !Truthy(store[id].pin) ==>
      response == Response(400, NO_PIN) && store' == store
    ensures Truthy(pin) && FindActive(store, userId, id).Some? && Truthy(store[id].pin) && !ComparePin(store[id].pin, pin) ==>
      response == Response(400, INCORRECT_PIN) && store' == store
    ensures response.status == 200 <==> Truthy(pin) && FindActive(store, userId, id).Some? && ComparePin(store[id].pin, pin)
    ensures response.status == 200 ==>
      response.message == PIN_VERIFIED && store' == store[id := store[id].(accessCount := store[id].accessCount + 1)]
  {
    if !Truthy(pin) {
      return Response(400, PIN_REQUIRED), store;
    }
    var found := FindActive(store, userId, id);
    if found.None? {
      return Response(404, NOT_FOUND), store;
    }
    if !Truthy(found.value.pin) {
      return Response(400, NO_PIN), store;
    }
    var doc := new PasswordDocument.Load(found.value);
    if !ComparePin(doc.pin, pin) {
      return Response(400, INCORRECT_PIN), store;
    }
    doc.UpdateAccess();
    response, store' := Response(200, PIN_VERIFIED), store[id := doc.Snapshot()];
  }

  // ---------------------------------------------------------------- update

  function Trimmed(field: Option<string>): Option<string> {
    if field.Some? then Some(Trim(field.value)) else None
  }

  /**
   * The `updateFields` of PUT: exactly the fields the body carries, text fields trimmed except
   * the password, and an empty PIN turned into `null`.
   */
  function BuildUpdateFields(body: Body): (u: Update)
    ensures u.title.Some? <==> body.title.Some?
    ensures u.username.Some? <==> body.username.Some?
    ensures u.password == body.password && u.category == body.category
    ensures u.website.Some? <==> body.website.Some?
    ensures u.notes.Some? <==> body.notes.Some?
    ensures u.pin.Some? <==> body.pin.Some?
    ensures body.pin.Some? ==> u.pin.value == (if body.pin.value == "" then None else body.pin)
    ensures body.title.Some? ==> u.title.value == Trim(body.title.value)
    ensures body.username.Some? ==> u.username.value == Trim(body.username.value)
    ensures body.website.Some? ==> u.website.value == Trim(body.website.value)
    ensures body.notes.Some? ==> u.notes.value == Trim(body.notes.value)
  {
    Update(Trimmed(body.title), Trimmed(body.username), body.password, Trimmed(body.website),
           body.category, Trimmed(body.notes),
           if body.pin.Some? then Some(if body.pin.value == "" then None else body.pin) else None)
  }

  /** An update that carries no field leaves the entry exactly as it was. */
  lemma EmptyUpdateChangesNothing(r: Record)
    ensures Apply(r, BuildUpdateFields(Body(None, None, None, None, None, None, None))) == r
  {
  }

  /**
   * PUT `/:id`: a missing entry gives 404, a truthy unknown category 400, and otherwise the
   * applied fields are saved; every field the body does not carry keeps its stored value. The
   * save validates every path of the loaded entry, not only the changed ones.
   */
  method UpdateEntry(store: Store, userId: string, id: string, body: Body,
                passwordSalt: Bcrypt.Salt, pinSalt: Bcrypt.Salt) returns (response: Response, store': Store)
    ensures FindActive(store, userId, id).None? ==> response == Response(404, NOT_FOUND) && store' == store
    ensures FindActive(store, userId, id).Some? && Truthy(body.category) && body.category.value !in CATEGORY_ENUM ==>
      response == Response(400, INVALID_CATEGORY) && store' == store
    ensures response.status == 200 ==>
      FindActive(store, userId, id).Some? && response.message == UPDATED
      && (var applied := Apply(store[id], BuildUpdateFields(body));
          var changed := ChangedPaths(store[id], applied);
          ValidationErrors(applied, ALL_PATHS) == []
          && store' == store[id := Hooked(applied, changed, passwordSalt, pinSalt)])
    ensures response.status != 200 ==> store' == store
    ensures FindActive(store, userId, id).Some? && !(Truthy(body.category) && body.category.value !in CATEGORY_ENUM) ==>
      var applied := Apply(store[id], BuildUpdateFields(body));
      (response.status == 200 <==> ValidationErrors(applied, ALL_PATHS) == [])
      && (ValidationErrors(applied, ALL_PATHS) != [] ==> response == Response(400, VALIDATION_FAILED))
  {
    var found := FindActive(store, userId, id);
    if found.None? {
      return Response(404, NOT_FOUND), store;
    }
    if Truthy(body.category) && body.category.value !in CATEGORY_ENUM {
      return Response(400, INVALID_CATEGORY), store;
    }
    ghost var applied := Apply(store[id], BuildUpdateFields(body));
    ghost var changed := ChangedPaths(store[id], applied);
    var doc := new PasswordDocument.Load(found.value);
    doc.Assign(BuildUpdateFields(body));
    assert doc.Snapshot() == applied && doc.modified == changed;
    assert PathsToValidate(doc.modified, doc.loaded, false) == ALL_PATHS;
    var outcome := doc.Save(passwordSalt, pinSalt, false);
    if outcome != Saved {
      assert ValidationErrors(applied, ALL_PATHS) != [];
      return SaveFailure(outcome, UPDATE_FAILED), store;
    }
    assert doc.Snapshot() == Hooked(applied, changed, passwordSalt, pinSalt);
    response, store' := Response(200, UPDATED), store[id := doc.Snapshot()];
  }

  /**
   * The route checks the category only when it is truthy, but an empty category still reaches the
   * document, whose enum refuses it: such an update ends in a validation error, not a stored `""`.
   */
  lemma EmptyCategoryRejectedBySchema(r: Record)
    ensures var applied := Apply(r, BuildUpdateFields(Body(None, None, None, None, Some(""), None, None)));
      NotInEnum("category", "") in ValidationErrors(applied, ALL_PATHS)
  {
  }

  // ---------------------------------------------------------------- delete

  /**
   * DELETE `/:id`: the entry is only marked inactive. It stays in the store, but no handler
   * finds it and no listing shows it any more. The save validates every path of the loaded entry,
   * and any failure is a 500.
   */
  method DeleteEntry(store: Store, userId: string, id: string, passwordSalt: Bcrypt.Salt, pinSalt: Bcrypt.Salt)
    returns (response: Response, store': Store)
    ensures FindActive(store, userId, id).None? ==> response == Response(404, NOT_FOUND) && store' == store
    ensures response.status == 200 ==>
      response.message == DELETED && FindActive(store, userId, id).Some?
      && store' == store[id := Hooked(store[id].(isActive := false), {"isActive"}, passwordSalt, pinSalt)]
    ensures response.status != 200 ==> store' == store
    ensures FindActive(store, userId, id).Some? ==>
      (response.status == 200 <==> ValidationErrors(store[id].(isActive := false), ALL_PATHS) == [])
      && (response.status != 200 ==> response == Response(500, DELETE_FAILED))
  {
    var found := FindActive(store, userId, id);
    if found.None? {
      return Response(404, NOT_FOUND), store;
    }
    var doc := new PasswordDocument.Load(found.value);
    doc.Deactivate();
    assert PathsToValidate(doc.modified, doc.loaded, false) == ALL_PATHS;
    var outcome := doc.Save(passwordSalt, pinSalt, false);
    if outcome != Saved {
      return Response(500, DELETE_FAILED), store;
    }
    response, store' := Response(200, DELETED), store[id := doc.Snapshot()];
  }

  /** Deactivating needs no hook: the saved entry is the old one with `isActive` false, PIN and password untouched. */
  lemma DeactivationKeepsSecrets(r: Record, passwordSalt: Bcrypt.Salt, pinSalt: Bcrypt.Salt)
    ensures Hooked(r.(isActive := false), {"isActive"}, passwordSalt, pinSalt) == r.(isActive := false)
  {
  }

  /** After a soft delete the entry is found by no handler and listed under no category. */
  lemma DeletedIsHidden(store: Store, userId: string, id: string, r: Record, category: Option<string>)
    requires id in store && !r.isActive
    ensures FindActive(store[id := r], userId, id).None?
    ensures id !in Listed(store[id := r], userId, category)
  {
  }
}
