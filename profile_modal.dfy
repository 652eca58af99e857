/** The profile dialog: loading and saving the `profiles` row, the Clerk fallback, photo upload and field edits. */
module ProfileModal {
  import opened Wrappers
  import opened Text
  import opened FormFields

  const MAX_PHOTO_BYTES := 5 * 1024 * 1024
  const PHOTO_TOO_LARGE := "File size must be less than 5MB"
  const NOT_AN_IMAGE := "Please select an image file"
  /** The store's "no row" code, which is not treated as an error. */
  const NO_ROW_CODE := "PGRST116"
  // Long messages are written as two literals so that Dafny can index their short first part,
  // which is what proves the messages distinct.
  const TABLE_MISSING_ALERT := "Profiles table not found. " + "Please create it in your Supabase SQL editor."
  const POLICY_ALERT := "Security Policy Error: " + "You do not have permission to save this profile. Please ensure you are logged in correctly."
  const TABLE_MISSING_TEXT := "relation \"profiles\" does not exist"
  const POLICY_TEXT := "violates row-level security policy"
  const SAVE_FAILED_PREFIX := "Failed to save profile: "
  const FALLBACK_REASON := "Please try again."

  /** The profile's flat fields; `address` is the nested object. */
  const PROFILE_FIELDS: seq<string> :=
    ["firstName", "lastName", "email", "dateOfBirth", "phoneNumber", "occupation", "company", "bio", "profilePhoto"]

  /** A `profiles` row; `None` is a null or missing column. */
  datatype ProfileRow = ProfileRow(
    userId: string,
    firstName: Option<string>,
    lastName: Option<string>,
    email: Option<string>,
    phoneNumber: Option<string>,
    dateOfBirth: Option<string>,
    occupation: Option<string>,
    company: Option<string>,
    address: Option<map<string, string>>,
    bio: Option<string>,
    profilePhoto: Option<string>)

  /** `value || ''`. */
  function OrEmpty(v: Option<string>): string {
    if Truthy(v) then v.value else ""
  }

  /** `profile[name]`, undefined when the profile never had that field. */
  function Field(p: Fields, name: string): Option<string> {
    if name in p.top then Some(p.top[name]) else None
  }

  /** The row column that stores profile field `name`. */
  function Column(row: ProfileRow, name: string): Option<string> {
    if name == "firstName" then row.firstName
    else if name == "lastName" then row.lastName
    else if name == "email" then row.email
    else if name == "dateOfBirth" then row.dateOfBirth
    else if name == "phoneNumber" then row.phoneNumber
    else if name == "occupation" then row.occupation
    else if name == "company" then row.company
    else if name == "bio" then row.bio
    else row.profilePhoto
  }

  /** The profile a fetched row gives: every field present, a missing or empty column as `''`, a missing address as `{}`. */
  function LoadProfile(row: ProfileRow): (p: Fields)
    ensures p.top.Keys == set k | k in PROFILE_FIELDS
    ensures forall k | k in PROFILE_FIELDS :: p.top[k] == OrEmpty(Column(row, k))
    ensures p.address == (if row.address.Some? then row.address.value else map[])
  {
    Fields(map k | k in PROFILE_FIELDS :: OrEmpty(Column(row, k)),
           if row.address.Some? then row.address.value else map[])
  }

  /** The row `handleSave` upserts for the signed-in user (its `updated_at` clock value aside). */
  function SaveRow(userId: string, p: Fields): (row: ProfileRow)
    ensures row.userId == userId && row.address == Some(p.address)
    ensures forall k | k in PROFILE_FIELDS :: Column(row, k) == Field(p, k)
  {
    ProfileRow(userId, Field(p, "firstName"), Field(p, "lastName"), Field(p, "email"), Field(p, "phoneNumber"),
               Field(p, "dateOfBirth"), Field(p, "occupation"), Field(p, "company"), Some(p.address),
               Field(p, "bio"), Field(p, "profilePhoto"))
  }

  /** A profile as a load would show it: the nine fields, missing ones empty; other names dropped. */
  function Normalised(p: Fields): Fields {
    Fields(map k | k in PROFILE_FIELDS :: if k in p.top then p.top[k] else "", p.address)
  }

  /** Saving and loading again gives back what was edited, up to missing fields reading as empty. */
  lemma LoadAfterSave(userId: string, p: Fields)
    ensures LoadProfile(SaveRow(userId, p)) == Normalised(p)
  {
    var loaded := LoadProfile(SaveRow(userId, p));
    assert loaded.top.Keys == Normalised(p).top.Keys;
    forall k | k in PROFILE_FIELDS ensures loaded.top[k] == Normalised(p).top[k] {
      assert Column(SaveRow(userId, p), k) == Field(p, k);
    }
  }

  /** A loaded profile saved unchanged comes back unchanged. */
  lemma SaveOfLoadIsStable(userId: string, row: ProfileRow)
    ensures LoadProfile(SaveRow(userId, LoadProfile(row))) == LoadProfile(row)
  {
    LoadAfterSave(userId, LoadProfile(row));
    assert Normalised(LoadProfile(row)) == LoadProfile(row);
  }

  /** The signed-in Clerk user, as far as this dialog reads it. */
  datatype ClerkUser = ClerkUser(
    id: string,
    firstName: Option<string>,
    lastName: Option<string>,
    primaryEmail: Option<string>,
    imageUrl: Option<string>)

  /** The four fields the Clerk account supplies. */
  const CLERK_FIELDS: set<string> := {"firstName", "lastName", "email", "profilePhoto"}

  /**
   * With no row yet, four fields come from the Clerk account (a missing value as `''`) and every
   * other field, the address included, stays as it was.
   */
  function ClerkFallback(prev: Fields, user: ClerkUser): (p: Fields)
    ensures p.address == prev.address
    ensures p.top.Keys == prev.top.Keys + CLERK_FIELDS
    ensures p.top["firstName"] == OrEmpty(user.firstName) && p.top["lastName"] == OrEmpty(user.lastName)
    ensures p.top["email"] == OrEmpty(user.primaryEmail) && p.top["profilePhoto"] == OrEmpty(user.imageUrl)
    ensures forall k | k in prev.top && k !in CLERK_FIELDS :: p.top[k] == prev.top[k]
  {
    prev.(top := prev.top["firstName" := OrEmpty(user.firstName)]["lastName" := OrEmpty(user.lastName)]
                         ["email" := OrEmpty(user.primaryEmail)]["profilePhoto" := OrEmpty(user.imageUrl)])
  }

  /** The Clerk values survive a save and the next load: the reloaded profile shows them as they were filled in. */
  lemma {:induction false} ClerkFallbackSurvivesSave(userId: string, prev: Fields, user: ClerkUser)
    ensures var reloaded := LoadProfile(SaveRow(userId, ClerkFallback(prev, user)));
      reloaded.top["firstName"] == OrEmpty(user.firstName) && reloaded.top["lastName"] == OrEmpty(user.lastName)
      && reloaded.top["email"] == OrEmpty(user.primaryEmail) && reloaded.top["profilePhoto"] == OrEmpty(user.imageUrl)
      && reloaded.address == prev.address
  {
    LoadAfterSave(userId, ClerkFallback(prev, user));
  }

  /** `error.message || error.details || 'Please try again.'`: the message wins over the details, the details over the stock reason. */
  function SaveErrorReason(message: Option<string>, details: Option<string>): (reason: string)
    ensures reason != ""
    ensures Truthy(message) ==> reason == message.value
    ensures !Truthy(message) && Truthy(details) ==> reason == details.value
    ensures !Truthy(message) && !Truthy(details) ==> reason == FALLBACK_REASON
  {
    if Truthy(message) then message.value else if Truthy(details) then details.value else FALLBACK_REASON
  }

  /**
   * The alert after a failed save: a missing table, then a refused row-level policy, each has its
   * own text; anything else is reported with its reason.
   */
  function ClassifySaveError(message: Option<string>, details: Option<string>): (alert: string)
    ensures var reason := SaveErrorReason(message, details);
      && (alert == TABLE_MISSING_ALERT <==> Contains(reason, TABLE_MISSING_TEXT))
      && (alert == POLICY_ALERT <==> !Contains(reason, TABLE_MISSING_TEXT) && Contains(reason, POLICY_TEXT))
      && (StartsWith(alert, SAVE_FAILED_PREFIX) <==> !Contains(reason, TABLE_MISSING_TEXT) && !Contains(reason, POLICY_TEXT))
      && (StartsWith(alert, SAVE_FAILED_PREFIX) ==> alert[|SAVE_FAILED_PREFIX|..] == reason)
  {
    AlertsDistinct();
    var reason := SaveErrorReason(message, details);
    if Contains(reason, TABLE_MISSING_TEXT) then TABLE_MISSING_ALERT
    else if Contains(reason, POLICY_TEXT) then POLICY_ALERT
    else SAVE_FAILED_PREFIX + reason
  }

  /** The three kinds of alert begin differently, so none can be taken for another. */
  lemma AlertsDistinct()
    ensures TABLE_MISSING_ALERT != POLICY_ALERT
    ensures !StartsWith(TABLE_MISSING_ALERT, SAVE_FAILED_PREFIX) && !StartsWith(POLICY_ALERT, SAVE_FAILED_PREFIX)
  {
    assert TABLE_MISSING_ALERT[0] == 'P' && POLICY_ALERT[0] == 'S' && SAVE_FAILED_PREFIX[0] == 'F';
    assert TABLE_MISSING_ALERT[..|SAVE_FAILED_PREFIX|][0] == 'P';
    assert POLICY_ALERT[..|SAVE_FAILED_PREFIX|][0] == 'S';
  }

  /** The outcome of the profile query: the row if any, and the error code if the query failed. */
  datatype FetchReply = FetchReply(row: Option<ProfileRow>, errorCode: Option<string>)

  /** The outcome of the upsert: `None` on success, else the error's message and details. */
  datatype SaveError = SaveError(message: Option<string>, details: Option<string>)

  /** The picked file, as far as the checks read it. */
  datatype Photo = Photo(size: nat, mimeType: string)

  class ProfileDialog {
    const user: Option<ClerkUser>
    var profile: Fields
    var isEditing: bool

    predicate SignedIn()
    {
      user.Some? && user.value.id != ""
    }

    constructor (user: Option<ClerkUser>)
      ensures this.user == user && !isEditing
      ensures profile == Fields(map["firstName" := "", "lastName" := "", "email" := ""], map[])
    {
      this.user := user;
      profile := Fields(map["firstName" := "", "lastName" := "", "email" := ""], map[]);
      isEditing := false;
    }

    /**
     * `fetchProfile`: a failed query (other than "no row") leaves the profile alone; a row replaces
     * it and reports a stored photo to the header; no row falls back to the Clerk account.
     */
    method FetchProfile(reply: FetchReply) returns (photoUpdate: Option<string>)
      modifies this`profile
      ensures !SignedIn() || (reply.errorCode.Some? && reply.errorCode.value != NO_ROW_CODE) ==>
        profile == old(profile) && photoUpdate.None?
      ensures SignedIn() && !(reply.errorCode.Some? && reply.errorCode.value != NO_ROW_CODE) ==>
        (reply.row.Some? ==> profile == LoadProfile(reply.row.value)
                             && photoUpdate == (if Truthy(reply.row.value.profilePhoto) then reply.row.value.profilePhoto else None))
        && (reply.row.None? ==> profile == ClerkFallback(old(profile), user.value) && photoUpdate.None?)
    {
      photoUpdate := None;
      if !SignedIn() {
        return;
      }
      if reply.errorCode.Some? && reply.errorCode.value != NO_ROW_CODE {
        return;
      }
      match reply.row {
        case Some(row) =>
          profile := LoadProfile(row);
          if Truthy(row.profilePhoto) {
            photoUpdate := row.profilePhoto;
          }
        case None =>
          profile := ClerkFallback(profile, user.value);
      }
    }

    /**
     * `handleSave`: the row sent for the signed-in user; on success editing ends and a photo is
     * reported to the header, on failure the classified alert is shown and editing goes on.
     */
    method HandleSave(outcome: Option<SaveError>) returns (sent: Option<ProfileRow>, alert: Option<string>, photoUpdate: Option<string>)
      modifies this`isEditing
      ensures !SignedIn() ==> sent.None? && alert.None? && photoUpdate.None? && isEditing == old(isEditing)
      ensures SignedIn() ==> sent == Some(SaveRow(user.value.id, profile))
      ensures SignedIn() && outcome.None? ==>
        !isEditing && alert.None? && photoUpdate == (if Truthy(Field(profile, "profilePhoto")) then Field(profile, "profilePhoto") else None)
      ensures SignedIn() && outcome.Some? ==>
        isEditing == old(isEditing) && photoUpdate.None?
        && alert == Some(ClassifySaveError(outcome.value.message, outcome.value.details))
    {
      sent, alert, photoUpdate := None, None, None;
      if !SignedIn() {
        return;
      }
      sent := Some(SaveRow(user.value.id, profile));
      match outcome {
        case Some(e) =>
          alert := Some(ClassifySaveError(e.message, e.details));
        case None =>
          isEditing := false;
          var photo := Field(profile, "profilePhoto");
          if Truthy(photo) {
            photoUpdate := photo;
          }
      }
    }

    /**
     * `handlePhotoUpload`: no file does nothing; a file over 5 MB, or one whose type is not
     * `image/…`, is refused with an alert; otherwise its data URL becomes the photo.
     */
    method HandlePhotoUpload(file: Option<Photo>, dataUrl: string) returns (alert: Option<string>)
      modifies this`profile
      ensures file.None? ==> alert.None? && profile == old(profile)
      ensures file.Some? && file.value.size > MAX_PHOTO_BYTES ==> alert == Some(PHOTO_TOO_LARGE) && profile == old(profile)
      ensures file.Some? && file.value.size <= MAX_PHOTO_BYTES && !StartsWith(file.value.mimeType, "image/") ==>
        alert == Some(NOT_AN_IMAGE) && profile == old(profile)
      ensures alert.None? && file.Some? ==>
        file.value.size <= MAX_PHOTO_BYTES && StartsWith(file.value.mimeType, "image/")
        && profile == old(profile).(top := old(profile).top["profilePhoto" := dataUrl])
    {
      alert := None;
      if file.None? {
        return;
      }
      if file.value.size > MAX_PHOTO_BYTES {
        return Some(PHOTO_TOO_LARGE);
      }
      if !StartsWith(file.value.mimeType, "image/") {
        return Some(NOT_AN_IMAGE);
      }
      profile := profile.(top := profile.top["profilePhoto" := dataUrl]);
    }

    /** `handleInputChange`: the same name-based update as the sign-up form. */
    method HandleInputChange(field: string, value: string)
      requires field != "address"
      modifies this`profile
      ensures Get(profile, PathOf(field)) == Some(value)
      ensures forall p: Path :: p != PathOf(field) ==> Get(profile, p) == Get(old(profile), p)
    {
      profile := SetField(profile, field, value);
    }

    /** The edit button. */
    method SetEditing(editing: bool)
      modifies this`isEditing
      ensures isEditing == editing
    {
      isEditing := editing;
    }
  }
}
