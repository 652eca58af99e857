# Secure-Vault, modelled in Dafny

Secure-Vault is a personal credential vault. The browser client keeps each user's vault items in
a `passwords` table. It encrypts every item's password, and its optional PIN, with AES under one
process-wide key. It decrypts them for display and gates viewing, copying, editing and deleting a
PIN-protected item behind a four-digit PIN pad. A separate Express/Mongoose server offers the same
vault over `/api/passwords`: its entries hash password and PIN with bcrypt in pre-save hooks and are
soft-deleted. The sign-in side covers the sign-in/sign-up form, the screen flow around it, the
e-mail verification code form and the profile dialog.

The model has one module per source file, plus four shared modules:
- `Wrappers`: Option and Result.
- `Text`: the JavaScript string operations used.
- `VaultItem`: the `Password` interface the dashboard components share.
- `FormFields`: the name-addressed form state used by both the sign-up form and the profile dialog.

Code that only computes becomes functions and lemmas. A React component becomes a class: its
`useState` variables are fields and its handlers are methods with `modifies` clauses. A fetch,
database write or confirm dialog becomes a parameter holding its answer. Randomness
(`Math.random`, salts) is a parameter or a `:|` choice, so every contract holds for every draw.

AES and bcrypt are foreign libraries, so each is replaced by a transparent stand-in with the laws
the vault relies on. AES (`Encryption.AesEncrypt`/`AesDecrypt`) has these:
- it round-trips under the same key;
- a fresh salt gives a fresh envelope;
- a string that is not an envelope makes decryption fail, which is the legacy-plaintext case;
- a key with a different fingerprint makes decryption fail.

The bcrypt stand-in (`Bcrypt.Hash`/`Compare`) accepts exactly the value that was hashed. Neither
stand-in says anything about secrecy.

## Model

| member | source | states |
|---|---|---|
| Encryption.ResolveKey | src/lib/encryption.ts:4 | the key is the environment value when set and non-empty, else the fixed fallback; never empty |
| Encryption.AesEncrypt | src/lib/encryption.ts:13 | an envelope starts with the OpenSSL "Salted__" prefix and is a fixed header longer than the plaintext |
| Encryption.AesDecrypt | src/lib/encryption.ts:28 | only an envelope (the "Salted__" prefix) decodes, and the decoded text is the envelope's tail after the fixed header |
| Encryption.AesRoundTrip | src/lib/encryption.ts:13-29 | decrypting an envelope under its own key gives back the plaintext |
| Encryption.EncryptPassword | src/lib/encryption.ts:11-19 | the envelope decrypts, under the same key, to the password |
| Encryption.EncryptPin | src/lib/encryption.ts:47-55 | the envelope decrypts, under the same key, to the PIN |
| Encryption.DecryptOrFail | src/lib/encryption.ts:27-39 | success exactly when the library decodes a non-empty text; that text is the result; every failure carries the one given message |
| Encryption.DecryptPassword | src/lib/encryption.ts:26-40 | success iff the envelope decodes to non-empty text, which is returned; otherwise "Failed to decrypt password" |
| Encryption.DecryptPin | src/lib/encryption.ts:62-76 | success iff the envelope decodes to non-empty text, which is returned; otherwise "Failed to decrypt PIN" |
| Encryption.VerifyPin | src/lib/encryption.ts:84-94 | when the stored PIN decrypts, true iff the candidate equals the decrypted PIN; otherwise true iff it equals the stored text |
| Encryption.PasswordAndPinShareCipher | src/lib/encryption.ts:11-76 | the password and PIN functions are one cipher under one key and differ only in error text |
| Encryption.RoundTrip | src/lib/encryption.ts:11-76 | every non-empty password and PIN decrypts back to itself |
| Encryption.EmptyDoesNotRoundTrip | src/lib/encryption.ts:31-33 | the empty plaintext encrypts, but its envelope is rejected on decryption |
| Encryption.SaltMakesEncryptionNondeterministic | src/lib/encryption.ts:13 | two salts give two different envelopes of the same plaintext, which decrypt alike |
| Encryption.OtherKeyFails | src/lib/encryption.ts:28-38 | an envelope made under a key with another fingerprint fails to decrypt |
| Encryption.VerifyLegacyPin | src/lib/encryption.ts:89-92 | a stored PIN that is not an envelope is compared as plaintext |
| Encryption.VerifyEncryptedPin | src/lib/encryption.ts:84-88 | an encrypted non-empty PIN is accepted exactly for that PIN |
| Encryption.PinEnvelopeAcceptsOnlyPin | src/lib/encryption.ts:84-94 | the same for all candidates at once |
| Encryption.EnvelopeDoesNotUnlock | src/lib/encryption.ts:84-94 | the stored envelope text never unlocks the PIN it encrypts |
| Encryption.EncryptedEmptyPinIsLegacy | src/lib/encryption.ts:84-94 | an encrypted empty PIN falls to the legacy branch: only its own envelope text matches it |
| Dashboard.LoadItem | src/components/Dashboard/Dashboard.tsx:85-114 | every field copied; the password is its decryption when that succeeds, the raw value otherwise; the PIN kept as stored |
| Dashboard.ActiveRows | src/components/Dashboard/Dashboard.tsx:75-80 | exactly the user's active rows, in table order |
| Dashboard.LoadItems | src/components/Dashboard/Dashboard.tsx:85 | one item per row, in order |
| Dashboard.LoadDecryptsEnvelope | src/components/Dashboard/Dashboard.tsx:91 | a row saved through encryptPassword shows its original non-empty password |
| Dashboard.LoadKeepsLegacyPassword | src/components/Dashboard/Dashboard.tsx:101-111 | a legacy plaintext password is shown as stored |
| Dashboard.SubsequenceReflexive | src/components/Dashboard/Dashboard.tsx:126 | an unfiltered list is an order-preserving selection of itself |
| Dashboard.SubsequenceTransitive | src/components/Dashboard/Dashboard.tsx:126-139 | two filters applied in turn still keep the original order |
| Dashboard.EmptyTermMatchesAll | src/components/Dashboard/Dashboard.tsx:128-134 | the empty term matches every item, so skipping the search on it changes nothing |
| Dashboard.FilterBySearch | src/components/Dashboard/Dashboard.tsx:128-134 | an order-preserving selection holding exactly the items whose title, website or username contains the term, ignoring case |
| Dashboard.FilterByCategory | src/components/Dashboard/Dashboard.tsx:137-139 | an order-preserving selection holding exactly the items of the category |
| Dashboard.FilterPasswords | src/components/Dashboard/Dashboard.tsx:125-142 | an order-preserving selection holding exactly the items that match both filters; no term and "all" give the list unchanged |
| Dashboard.SaveRecord | src/components/Dashboard/Dashboard.tsx:155-166 | password stored encrypted and decrypting to the form's; PIN present iff given, encrypted, and then accepted only for that PIN; row active with access count 0 |
| Dashboard.UpdateRows | src/components/Dashboard/Dashboard.tsx:173-177 | only the row with that id and user is replaced, keeping its timestamps; every other row is untouched |
| Dashboard.DeleteRows | src/components/Dashboard/Dashboard.tsx:257-261 | exactly the rows other than that id and user remain |
| Dashboard.SaveErrorAlert | src/components/Dashboard/Dashboard.tsx:204-213 | the table alert iff the message names the missing table; the authentication alert iff not that and it mentions "JWT"; the policy alert iff neither and it names the refused policy; otherwise, and only then, the failure prefix followed by the message, or by "Please try again." when there is none |
| Dashboard.FindById | src/components/Dashboard/Dashboard.tsx:218 | a found item is in the list with that id; none means no item has it |
| Dashboard.EditSaveLocksItem | src/components/Dashboard/Dashboard.tsx:95 | see Findings: as written, the user's PIN no longer unlocks an edited item |
| Dashboard.SaveRecordKeepingPin | src/components/Dashboard/Dashboard.tsx:163 | corrected save: a PIN that already decrypts is kept, any other is encrypted; everything else as SaveRecord |
| Dashboard.EditSaveKeepsPin | src/components/Dashboard/Dashboard.tsx:155-166 | with the correction, the edited item is unlocked exactly by the user's PIN |
| Dashboard.KeepingPinAgreesOnNewPins | src/components/Dashboard/Dashboard.tsx:163 | for a four-character PIN from the pad, the corrected save equals the written one |
| Dashboard.DashboardState.constructor | src/components/Dashboard/Dashboard.tsx:31-40 | initial state, then the fetch and filter effects have run |
| Dashboard.DashboardState.Refresh | src/components/Dashboard/Dashboard.tsx:67-123 | the loaded and filtered lists again reflect the table |
| Dashboard.DashboardState.SetSearchTerm | src/components/Dashboard/Dashboard.tsx:593 | the term is set and the filtered list follows it |
| Dashboard.DashboardState.SetSelectedCategory | src/components/Dashboard/Dashboard.tsx:612 | the category is set and the filtered list follows it |
| Dashboard.DashboardState.ExecuteDelete | src/components/Dashboard/Dashboard.tsx:252-271 | the user's row is hard-deleted and the lists re-fetched |
| Dashboard.DashboardState.HandleDeletePassword | src/components/Dashboard/Dashboard.tsx:217-229 | an unknown id does nothing; a PIN-protected item only opens the PIN prompt; any other is deleted iff confirmed |
| Dashboard.DashboardState.HandleVerifyDeletePin | src/components/Dashboard/Dashboard.tsx:231-250 | the pending item is deleted only when verifyPin accepts the PIN; a wrong PIN changes nothing; a vanished item closes the prompt |
| Dashboard.DashboardState.CloseDeletePinModal | src/components/Dashboard/Dashboard.tsx:752-755 | the prompt closes and the pending id is forgotten |
| Dashboard.DashboardState.HandleSavePassword | src/components/Dashboard/Dashboard.tsx:144-215 | no user: only the log-in alert; a failed write: nothing changes and the classified alert shows; otherwise the record is written and editing ends |
| Dashboard.DashboardState.WriteAndRefresh | src/components/Dashboard/Dashboard.tsx:170-199 | the edited row is updated, or a new row inserted, and the lists re-fetched from the table |
| Dashboard.DashboardState.HandleEditPassword | src/components/Dashboard/Dashboard.tsx:273-276 | the item is being edited and the dialog is open |
| Dashboard.DashboardState.HandleAddPassword | src/components/Dashboard/Dashboard.tsx:278-281 | nothing is being edited and the dialog is open |
| Dashboard.DashboardState.CloseModal | src/components/Dashboard/Dashboard.tsx:736-739 | the dialog closes and editing ends |
| PinModal.JoinedSlots | src/components/Dashboard/PinModal.tsx:19-20 | slots of at most one digit join to at most four digits, and to four only when all are filled |
| PinModal.PinPad.constructor | src/components/Dashboard/PinModal.tsx:15-16 | four empty slots, no error |
| PinModal.PinPad.HandlePinChange | src/components/Dashboard/PinModal.tsx:19-31 | a value that is not at most one digit changes nothing; otherwise only that slot changes |
| PinModal.PinPad.HandleSubmit | src/components/Dashboard/PinModal.tsx:40-52 | fewer than four digits: error and nothing submitted; otherwise exactly the four digits are submitted and the pad cleared |
| PinModal.PinPad.HandleClose | src/components/Dashboard/PinModal.tsx:54-58 | slots and error are cleared |
| StatsCards.CountCategory | src/components/Dashboard/StatsCards.tsx:19-23 | a count never exceeds the number of items |
| StatsCards.GetPasswordCount | src/components/Dashboard/StatsCards.tsx:16-25 | the total is the number of items and bounds every counter |
| StatsCards.CategoriesPartition | src/components/Dashboard/StatsCards.tsx:16-25 | the five counters add up to at most the total, and to the total when every category is a known one |
| StatsCards.CountMatchesCategoryFilter | src/components/Dashboard/StatsCards.tsx:19-23 | a category's count equals the number of cards the dashboard shows for it with no search |
| StatsCards.CountIsFilterLength | src/components/Dashboard/StatsCards.tsx:19-23 | a category's count is the length of the category filter |
| StatsCards.CountFront | src/components/Dashboard/StatsCards.tsx:19 | counting from the front agrees with counting from the back |
| PasswordCard.CategoryIcon | src/components/Dashboard/PasswordCard.tsx:95-104 | social, work, finance and entertainment each show their own icon; "other" and any unknown category show the folder; the result is always one of the five icons |
| PasswordCard.CategoryIconsDistinct | src/components/Dashboard/PasswordCard.tsx:96-102 | distinct known categories have distinct icons |
| PasswordCard.WebsiteUrl | src/components/Dashboard/PasswordCard.tsx:161 | the address starts with "http": the site itself when it does, else "https://" plus the site |
| PasswordCard.WebsiteUrlIdempotent | src/components/Dashboard/PasswordCard.tsx:46 | completing an address twice changes nothing |
| PasswordCard.Card.constructor | src/components/Dashboard/PasswordCard.tsx:28-31 | password hidden, no PIN prompt, parked action "view" |
| PasswordCard.Card.ExecuteAction | src/components/Dashboard/PasswordCard.tsx:63-75 | view toggles the revealed password; copy hands out the password; edit hands out the item |
| PasswordCard.Card.HandlePasswordAction | src/components/Dashboard/PasswordCard.tsx:54-61 | a PIN-protected item parks the action and opens the pad, with no effect; otherwise the action runs at once |
| PasswordCard.Card.HandlePinVerification | src/components/Dashboard/PasswordCard.tsx:77-90 | the parked action runs and the pad closes only without a PIN or when verifyPin accepts; a wrong PIN changes nothing |
| PasswordCard.Card.CopyUsername | src/components/Dashboard/PasswordCard.tsx:216 | the username is copied without a PIN |
| PasswordCard.Card.ClosePinModal | src/components/Dashboard/PasswordCard.tsx:286 | the pad closes and nothing else changes, the parked action included |
| PasswordCard.ProtectedActionNeedsPin | src/components/Dashboard/PasswordCard.tsx:77-83 | on an item with an encrypted PIN, the pad unlocks exactly for that PIN |
| PasswordModal.CriteriaMet | src/components/Dashboard/PasswordModal.tsx:81-89 | at most five criteria |
| PasswordModal.CalculatePasswordStrength | src/components/Dashboard/PasswordModal.tsx:81-89 | the score is 25 per criterion met, capped at 100: a multiple of 25 in 0..100 |
| PasswordModal.StrengthFull | src/components/Dashboard/PasswordModal.tsx:81-89 | 100 iff at least four criteria; the empty password scores 0 |
| PasswordModal.ExtendKeepsCriteria | src/components/Dashboard/PasswordModal.tsx:82-87 | appending characters keeps every criterion met |
| PasswordModal.StrengthMonotone | src/components/Dashboard/PasswordModal.tsx:81-89 | typing more never lowers the meter |
| PasswordModal.StrengthColor | src/components/Dashboard/PasswordModal.tsx:91-96 | red below 25, orange from 25, yellow from 50, green from 75, each colour iff its range |
| PasswordModal.StrengthText | src/components/Dashboard/PasswordModal.tsx:98-103 | Weak below 25, Fair from 25, Good from 50, Strong from 75, each label iff its range |
| PasswordModal.LabelAndColorAgree | src/components/Dashboard/PasswordModal.tsx:91-103 | colour and label use the same thresholds; the label is Weak, Fair, Good or Strong for 0, 1, 2 or 3+ criteria |
| PasswordModal.GeneratePassword | src/components/Dashboard/PasswordModal.tsx:105-113 | sixteen characters, each from the 70-character set |
| PasswordModal.GeneratedIsAtLeastFair | src/components/Dashboard/PasswordModal.tsx:105-113 | a generated password never shows as Weak |
| PasswordModal.ModalState.constructor | src/components/Dashboard/PasswordModal.tsx:29-43 | the blank form, not editing, not verified |
| PasswordModal.ModalState.Open | src/components/Dashboard/PasswordModal.tsx:46-75 | an item is copied into the form and, if it has a PIN, locked behind the pad; no item gives the blank form, unlocked |
| PasswordModal.ModalState.SetPassword | src/components/Dashboard/PasswordModal.tsx:77-79 | only the password field changes, and the meter follows it |
| PasswordModal.ModalState.GenerateNewPassword | src/components/Dashboard/PasswordModal.tsx:105-113 | only the password changes, to a sixteen-character draw whose every character is in the 70-character set |
| PasswordModal.ModalState.HandlePinVerification | src/components/Dashboard/PasswordModal.tsx:115-133 | editing a PIN item: a verifying PIN unlocks, a wrong one changes nothing; otherwise the form is saved with the entered PIN and the dialog closes |
| PasswordModal.ModalState.HandleSubmit | src/components/Dashboard/PasswordModal.tsx:135-151 | an unverified edit is refused; a new item asks for its PIN; a verified edit is saved; a saved PIN-protected edit was unlocked by a verifying PIN |
| PasswordModal.ModalState.HandleClose | src/components/Dashboard/PasswordModal.tsx:153-157 | the verification is forgotten and the pad hidden |
| Bcrypt.Hash | server/models/Password.js:109 | a hash carries the cost-12 header and salt in front of the hidden value |
| Bcrypt.Compare | server/models/Password.js:141 | a hash that accepts a value carries the header and is as long as the header, salt and value together |
| Bcrypt.CompareHash | server/models/Password.js:141 | a hash accepts exactly the value it was made from |
| Bcrypt.HashDiffersFromPlain | server/models/User.js:176 | a hash is never the value it hides |
| PasswordModel.PathsToValidate | server/routes/passwords.js:217 | by default the required, loaded and modified paths; with validateModifiedOnly exactly the modified ones; never fewer than the modified ones |
| PasswordModel.ValidationErrors | server/models/Password.js:11-63 | no error iff every validated path meets its required, maxlength, enum or PIN constraint |
| PasswordModel.FewerPathsFewerErrors | server/models/Password.js:11-63 | a record that passes validation of some paths passes validation of any fewer paths |
| PasswordModel.PasswordHookError | server/models/Password.js:105-108 | the hook throws iff it applies to an empty password |
| PasswordModel.PinHookError | server/models/Password.js:120-124 | the hook throws iff it applies to a PIN that is not four digits |
| PasswordModel.HooksCannotFailAfterValidation | server/models/Password.js:102-131 | once validation of the modified paths (and possibly more) passes, neither hook can throw |
| PasswordModel.HookedStoresHashes | server/models/Password.js:102-131 | a saved password or PIN that a hook applies to is a hash accepting exactly the saved value; otherwise it is kept |
| PasswordModel.MarkedValuesUntouched | server/models/Password.js:105 | values already starting with "$2b$" pass both hooks unchanged |
| PasswordModel.ComparePin | server/models/Password.js:134-146 | true iff both PINs are present, the candidate is four digits and the hash accepts it |
| PasswordModel.ToJson | server/models/Password.js:85-92 | a truthy password becomes the mask, `__v` is dropped, every other key is unchanged |
| PasswordModel.ToJsonHidesPassword | server/models/Password.js:87-89 | the JSON view shows the mask or a falsy password, and serialising twice changes nothing |
| PasswordModel.Apply | server/routes/passwords.js:216 | field by field, each of the seven fields the update carries replaces the stored one and each it does not carry is kept; owner, status and count are kept |
| PasswordModel.ChangedPaths | server/routes/passwords.js:216 | only schema paths; none when nothing changed |
| PasswordModel.ChangedPathsExactly | server/routes/passwords.js:216 | each of the ten paths is changed iff its two values differ; no path is changed iff the records are equal |
| PasswordModel.Carried | server/routes/passwords.js:206-213 | a path is carried iff the update holds a value for its field |
| PasswordModel.AssignMarksOnlyCarried | server/routes/passwords.js:216 | assigning an update marks no path it does not carry |
| PasswordModel.StoredPinHashFailsResave | server/routes/passwords.js:216-217 | see Findings: as written, an entry created with a PIN fails validation on every later update that leaves the PIN alone and on the soft delete |
| PasswordModel.ModifiedOnlyResaveSucceeds | server/routes/passwords.js:252-254 | corrected save: validating only modified paths, an update with valid values and the soft delete pass whatever the stored record holds |
| PasswordModel.PasswordDocument.Create | server/routes/passwords.js:105-114 | active, never accessed, every path modified, none loaded |
| PasswordModel.PasswordDocument.Load | server/routes/passwords.js:185-189 | the stored record, every path loaded, nothing modified |
| PasswordModel.PasswordDocument.SetRecord | server/routes/passwords.js:216 | the new record, with exactly the changed paths added to the modified set |
| PasswordModel.PasswordDocument.Assign | server/routes/passwords.js:216 | the update applied; only paths whose value changed are marked |
| PasswordModel.PasswordDocument.Deactivate | server/routes/passwords.js:253 | only isActive becomes false |
| PasswordModel.PasswordDocument.PreSavePassword | server/models/Password.js:102-115 | the hook's error, and otherwise the password hashed exactly when the hook applies |
| PasswordModel.PasswordDocument.PreSavePin | server/models/Password.js:118-131 | the hook's error, and otherwise the PIN hashed exactly when the hook applies |
| PasswordModel.PasswordDocument.Save | server/models/Password.js:4-131 | validates the paths PathsToValidate gives; invalid: the errors, and the record, modified and loaded paths all unchanged; valid: saved, the hooked record stored, the modified paths now loaded and none left modified |
| PasswordModel.PasswordDocument.UpdateAccess | server/models/Password.js:161-166 | one more access |
| PasswordsRoute.FindActive | server/routes/passwords.js:59-63 | found iff the id exists, belongs to the user and is active |
| PasswordsRoute.Listed | server/routes/passwords.js:12-17 | exactly the user's active entries, of the category when a truthy one other than "all" is asked for |
| PasswordsRoute.ListedIsFindActive | server/routes/passwords.js:12-17 | without a category filter, an id is listed iff the single-entry handlers find it |
| PasswordsRoute.Skip | server/routes/passwords.js:30 | nothing is skipped on page 1, and never a negative count for a page from 1 and a non-negative limit |
| PasswordsRoute.Pages | server/routes/passwords.js:47 | none for a zero limit; with a positive limit the fewest pages covering the total |
| PasswordsRoute.PagesCoverResults | server/routes/passwords.js:30-47 | page p starts inside the results iff p is at most the page count |
| PasswordsRoute.GetEntry | server/routes/passwords.js:57-82 | missing: 404 and nothing changes; found: the entry record as read (the response body is its `toJSON` view, PasswordModel.ToJson), and one more access stored |
| PasswordsRoute.CheckCreate | server/routes/passwords.js:90-102 | passes iff the four required fields are truthy and the category, if truthy, is known; failures are 400s |
| PasswordsRoute.NewEntry | server/routes/passwords.js:105-114 | trimmed text fields, password as sent, category default "other", empty notes and PIN left out, active, never accessed |
| PasswordsRoute.SaveFailure | server/routes/passwords.js:125-130 | a validation failure answers 400 "Validation failed"; any other failure 500 with the handler's message |
| PasswordsRoute.CreateEntry | server/routes/passwords.js:85-131 | a failed check or invalid entry stores nothing; otherwise 201 and the hooked entry is stored under the new id |
| PasswordsRoute.VerifyPin | server/routes/passwords.js:135-178 | missing PIN 400, missing entry 404, no stored PIN 400, wrong PIN 400; 200 iff comparePin accepts, and then one more access |
| PasswordsRoute.BuildUpdateFields | server/routes/passwords.js:206-213 | exactly the fields the body carries; title, username, website and notes trimmed; password and category as sent; an empty PIN turned into null |
| PasswordsRoute.EmptyUpdateChangesNothing | server/routes/passwords.js:206-216 | an update without fields leaves the entry as it was |
| PasswordsRoute.UpdateEntry | server/routes/passwords.js:181-237 | 404 or 400 before anything changes; 200 iff the updated entry passes validation of every path, loaded ones included, and then the hooked entry is stored; otherwise 400 "Validation failed" and nothing changes |
| PasswordsRoute.EmptyCategoryRejectedBySchema | server/routes/passwords.js:196-211 | an empty category slips past the route check but the schema's enum refuses it |
| PasswordsRoute.DeleteEntry | server/routes/passwords.js:240-269 | 404 for a missing entry; for a found one 200 iff the deactivated entry passes validation of every path, and then only that entry changes, to its deactivated self; otherwise 500 and nothing changes |
| PasswordsRoute.DeactivationKeepsSecrets | server/routes/passwords.js:252-254 | the soft delete re-hashes nothing |
| PasswordsRoute.DeletedIsHidden | server/routes/passwords.js:12 | a deactivated entry is found by no handler and listed under no category |
| UserModel.PhoneNumberValid | server/models/User.js:68-70 | empty, or an optional "+" then a digit 1-9 and at most fifteen more digits |
| UserModel.PhoneNumberBounds | server/models/User.js:69 | an accepted number has at most seventeen characters, all digits after an optional "+", not starting with 0 |
| UserModel.ToJson | server/models/User.js:153-159 | the PIN hash and `__v` are removed and every other key is kept |
| UserModel.ComparePin | server/models/User.js:185-192 | true iff both PINs are present and the hash accepts the candidate |
| UserModel.UserDocument.Load | server/models/User.js:118-122 | the stored fields, PIN not modified |
| UserModel.UserDocument.SetUserPin | server/models/User.js:171 | the PIN is set and marked modified when it changes |
| UserModel.UserDocument.PreSave | server/models/User.js:168-182 | an unmodified or empty PIN is kept; a modified one must be 4-6 digits and is then hashed, else "PIN must be 4-6 digits" |
| UserModel.FieldErrors | server/models/User.js:41-73 | no error iff the photo is empty, a data-URL image or starts with "http" and the phone number is valid; each message appears iff its validator fails |
| UserModel.UserDocument.Save | server/models/User.js:41-73 | an invalid photo or phone number: their messages and nothing changes; else the PIN hook's error and nothing changes; else saved with the PIN hashed when modified and not empty |
| UserModel.SavedPinIsHashed | server/models/User.js:168-192 | a saved 4-6-digit PIN is stored only as a hash that accepts exactly that PIN |
| VerificationForm.FormatTime | src/components/Auth/VerificationForm.tsx:127-131 | the text holds the colon between minutes and seconds; FormatTimeRoundTrip reads it back |
| VerificationForm.PaddedSeconds | src/components/Auth/VerificationForm.tsx:130 | the padded seconds are two digits that read back as the seconds |
| VerificationForm.FormatTimeRoundTrip | src/components/Auth/VerificationForm.tsx:127-131 | reading the display back gives the seconds it was made from |
| VerificationForm.CodeForm.constructor | src/components/Auth/VerificationForm.tsx:18-22 | six empty boxes, ten minutes left, no resend, no error |
| VerificationForm.CodeForm.Tick | src/components/Auth/VerificationForm.tsx:26-38 | one second off, stopping at zero, and zero enables resending |
| VerificationForm.CodeForm.HandleCodeChange | src/components/Auth/VerificationForm.tsx:40-45 | a value longer than one character changes nothing; otherwise only that box changes |
| VerificationForm.CodeForm.HandleSubmit | src/components/Auth/VerificationForm.tsx:61-100 | an incomplete code sends nothing and sets the error; a complete one is sent, and the reply's message or "Verification failed" becomes the error unless accepted |
| VerificationForm.CodeForm.HandleResendCode | src/components/Auth/VerificationForm.tsx:102-125 | nothing before the countdown ends; an accepted resend restarts it; a refused one changes nothing; a thrown one sets the error |
| VerificationForm.CountdownLength | src/components/Auth/VerificationForm.tsx:21-35 | resending becomes possible after exactly 600 ticks |
| VerificationForm.CountdownSteps | src/components/Auth/VerificationForm.tsx:28-33 | after n ticks the time left is the start minus n, floored at zero |
| FormFields.PathOf | src/components/Auth/AuthForm.tsx:54-55 | a name starting "address." selects the key that follows it up to the next dot or the end; any other name a flat field |
| FormFields.AddressFieldNamesKey | src/components/Auth/AuthForm.tsx:54-55 | "address." followed by a dot-free key selects exactly that key |
| FormFields.SetField | src/components/Auth/AuthForm.tsx:53-69 | the named place then reads the value and every other place is unchanged |
| FormFields.SamePathSameEffect | src/components/Dashboard/ProfileModal.tsx:178-194 | two names selecting the same place have the same effect |
| FormFields.IndependentFields | src/components/Dashboard/ProfileModal.tsx:178-194 | writing two different places keeps both values |
| AuthForm.EmptyForm | src/components/Auth/AuthForm.tsx:15-34 | the initial form has e-mail and password fields |
| AuthForm.AuthFormState.constructor | src/components/Auth/AuthForm.tsx:14-38 | sign-in mode, empty form, no error, step 1 |
| AuthForm.AuthFormState.HandleInputChange | src/components/Auth/AuthForm.tsx:53-69 | the named field reads the value and nothing else changes |
| AuthForm.AuthFormState.NextStep | src/components/Auth/AuthForm.tsx:111-113 | one step forward, never past 3 |
| AuthForm.AuthFormState.PrevStep | src/components/Auth/AuthForm.tsx:115-117 | one step back, never before 1 |
| AuthForm.AuthFormState.ToggleMode | src/components/Auth/AuthForm.tsx:748-752 | the mode flips, back at step 1, error cleared |
| AuthForm.AuthFormState.HandleSubmit | src/components/Auth/AuthForm.tsx:71-109 | sign-in sends only e-mail and password to /signin, sign-up the whole form to /signup; a token logs in, an accepted reply without one asks for the security question, anything else sets the message or "An error occurred" |
| AuthFlow.Flow.constructor | src/components/Auth/AuthFlow.tsx:8-13 | the auth screen, no security data |
| AuthFlow.Flow.HandleAuthSuccess | src/components/Auth/AuthFlow.tsx:15-24 | a token changes nothing; otherwise the security screen with the user's data |
| AuthFlow.Flow.HandleForgotPassword | src/components/Auth/AuthFlow.tsx:26-28 | the forgot-password screen |
| AuthFlow.Flow.HandleForgotPasswordSuccess | src/components/Auth/AuthFlow.tsx:30-33 | the security screen with the data marked as a password reset |
| AuthFlow.Flow.HandleBackToAuth | src/components/Auth/AuthFlow.tsx:39-42 | the auth screen, security data forgotten |
| ProfileModal.LoadProfile | src/components/Dashboard/ProfileModal.tsx:69-80 | every profile field present, a missing or empty column as "", a missing address as {} |
| ProfileModal.SaveRow | src/components/Dashboard/ProfileModal.tsx:105-117 | the row belongs to the user and carries each profile field in its column |
| ProfileModal.LoadAfterSave | src/components/Dashboard/ProfileModal.tsx:69-117 | saving then loading gives back the edited profile, missing fields read as empty |
| ProfileModal.SaveOfLoadIsStable | src/components/Dashboard/ProfileModal.tsx:69-117 | a loaded profile saved unchanged loads back unchanged |
| ProfileModal.ClerkFallback | src/components/Dashboard/ProfileModal.tsx:86-92 | the first and last name, e-mail and photo come from the account, a missing one as ""; every other field keeps its value, none is dropped, the address is kept |
| ProfileModal.ClerkFallbackSurvivesSave | src/components/Dashboard/ProfileModal.tsx:86-117 | the account values filled in by the fallback read back unchanged after a save and a load |
| ProfileModal.SaveErrorReason | src/components/Dashboard/ProfileModal.tsx:141 | the message when truthy, else the details when truthy, else "Please try again."; never empty |
| ProfileModal.ClassifySaveError | src/components/Dashboard/ProfileModal.tsx:141-148 | the table alert iff the reason names the missing table; the policy alert iff not that and it names the refused policy; otherwise, and only then, the failure prefix followed by the reason |
| ProfileModal.ProfileDialog.constructor | src/components/Dashboard/ProfileModal.tsx:34-41 | the initial profile, not editing |
| ProfileModal.ProfileDialog.FetchProfile | src/components/Dashboard/ProfileModal.tsx:52-99 | a failed query other than "no row" changes nothing; a row replaces the profile and reports a stored photo; no row falls back to the account |
| ProfileModal.ProfileDialog.HandleSave | src/components/Dashboard/ProfileModal.tsx:101-152 | the user's row is sent; success ends editing and reports a photo; failure shows the classified alert |
| ProfileModal.ProfileDialog.HandlePhotoUpload | src/components/Dashboard/ProfileModal.tsx:154-176 | no file does nothing; over 5 MB or not an image is refused with its alert; otherwise only the photo changes |
| ProfileModal.ProfileDialog.HandleInputChange | src/components/Dashboard/ProfileModal.tsx:178-194 | the named field reads the value and nothing else changes |
| ProfileModal.ProfileDialog.SetEditing | src/components/Dashboard/ProfileModal.tsx:41 | the editing flag is set |
| Text.Lower | src/components/Dashboard/Dashboard.tsx:131-133 | same length, each ASCII capital lowered |
| Text.Trim | server/routes/passwords.js:107-112 | the input is a run of white space, the result, and another run of white space; the result neither starts nor ends with white space |
| Text.SegmentAfter | src/components/Auth/AuthForm.tsx:55 | the text right after the prefix, up to the next dot or the end |
| Text.JoinShortParts | src/components/Auth/VerificationForm.tsx:63-65 | one-character boxes join to at most one character each, reaching the box count only when all are filled |
| Text.DecimalRoundTrip | src/components/Auth/VerificationForm.tsx:130 | printed numbers read back as themselves |
| Text.PadStart2 | src/components/Auth/VerificationForm.tsx:130 | at least two characters, zeros in front of the input |

## Left out

- Bcrypt.Hash: the stand-in's hash is 29 characters plus the hashed value, where a real bcrypt hash is always 60 characters. Because the handlers re-validate loaded paths, an update or delete of an entry whose password has 472 to 500 characters fails the 500-character limit in the model only.
- UserModel.UserDocument: only the photo and phone validators are modelled. The name, bio, address and other `maxlength` limits, the date-of-birth check and the theme enum (server/models/User.js:29-128) are not, so "saved" holds only as far as those paths go.
- PasswordsRoute.GetEntry: returns the stored record; the response body is that record's `toJSON` view (PasswordModel.ToJson), which masks the password.
- AES and bcrypt are stand-ins (see above), not the ciphers. bcrypt's 72-byte truncation, cost and `$2a$`/`$2b$` variants are not modelled. Hashes in the model start with `$2a$12$`, as bcryptjs 2.x emits them.
- Encryption.EncryptPassword, Encryption.EncryptPin: the stand-in never throws, so the "Failed to encrypt ..." re-raise branches are not reachable in the model.
- Supabase, MongoDB and `fetch` are not called. Their answers are parameters: a table as a sequence or map, a reply or error value, `newId`/`createdAt` for an insert. Clocks (`updated_at`, `lastAccessed`, `createdAt`, `lastLogin`, `dateOfBirth` in the past) and the listing's sort order and `limit`/`skip` slicing are left out.
- The server listing's regular-expression search, the website and e-mail validators, the `stats/overview` and `bulk/delete` routes, `getDecryptedPassword`, `updateLastLogin` and the `findByCategory`/`searchPasswords` statics are not modelled. `CastError` answers and non-string JSON body values (null, numbers) are not modelled either.
- PasswordModel.PathsToValidate: the library also validates paths that received a default; a new entry has every path modified, so this adds nothing here.
- Dashboard.DashboardState.ExecuteDelete: a failed delete and its alert are not modelled, and the delete is assumed to succeed.
- ProfileModal.ProfileDialog.HandleSave: the re-fetch after a successful save is a separate `FetchProfile` step. The profile photo's report to the header is a result.
- `toLowerCase` is modelled on ASCII letters only; `maxlength` counts characters, not UTF-16 code units. VerificationForm.CodeForm.HandleCodeChange and PinModal.AcceptedInput likewise measure `value.length > 1` in characters, so one character outside the Basic Multilingual Plane is rejected by the source but accepted by the model.
- Timers, focus moves, clipboard writes, `alert` texts other than those modelled, loading flags, animations and the theme are left out. The one-second interval is the `Tick` method. The clipboard write and `onEdit` are returned effects.
- ProfileModal.ProfileDialog.HandlePhotoUpload: the `FileReader` result arrives as the `dataUrl` parameter.
- PasswordModal.ModalState: only the password field has a setter; the other inputs are plain field writes.
- FormFields.SetField, AuthForm.AuthFormState.HandleInputChange, ProfileModal.ProfileDialog.HandleInputChange: require a field name other than exactly `address`. No input uses that name, and it would replace the nested object with a string.
- AuthFlow.Flow.HandleAuthSuccess, AuthFlow.Flow.HandleForgotPassword: require the auth screen, because only that screen is given these callbacks (src/components/Auth/AuthFlow.tsx:54-66).
- The forgot-password and security-question forms are not part of this model.
- PasswordsRoute.Pages, PasswordsRoute.Skip: page and limit arrive as integers. `parseInt` of text that is not a number (NaN) or that has trailing non-digits ("5x" reads as 5) is not modelled.
- PasswordCard.CategoryIcon: a category that names a member of `Object.prototype`, such as "constructor", makes `icons[category]` return that member instead of the folder icon. The model treats such names as unknown categories.
- PasswordModal.CriteriaMet: the length criterion counts characters; JavaScript counts UTF-16 code units, so a character outside the Basic Multilingual Plane counts twice there.
- Dashboard.FilterBySearch: "exactly the items that match" is stated as membership together with order preservation. For a list holding the same item twice, how many copies survive is not stated.
- Dashboard.FilterPasswords: "exactly the items that match" is stated as membership together with order preservation. For a list holding the same item twice, how many copies survive is not stated.

## Findings

| source | as written | input that shows it | evidently intended | confidence | as-written member | corrected member |
|---|---|---|---|---|---|---|
| src/components/Dashboard/Dashboard.tsx:163 | Loading keeps an item's PIN as its stored envelope (line 95), and the edit form copies it (src/components/Dashboard/PasswordModal.tsx:48). Saving then encrypts it again. | Edit any item whose PIN is "1234" and save: the stored PIN is now the encryption of the old envelope. Entering "1234" no longer unlocks the item. Only the envelope text would, and that is longer than the four digits the pad accepts. | A PIN that already decrypts is stored as it is; only a new PIN is encrypted. | not executed | Dashboard.EditSaveLocksItem | Dashboard.SaveRecordKeepingPin, Dashboard.EditSaveKeepsPin |

| server/routes/passwords.js:216-217 | `save()` runs without options (here and at line 254), so the library validates every loaded path, the stored PIN included. That PIN is a bcrypt hash, and the PIN validator (server/models/Password.js:55-63) accepts only four digits. | Create an entry with PIN "1234". A later PUT that changes only the title answers 400 "Validation failed". A DELETE of the entry answers 500 "Failed to delete password". | A PIN-protected entry can be edited and soft-deleted. Only the values a request changes are validated (`validateModifiedOnly`), or the validator accepts a stored hash. | not executed | PasswordModel.StoredPinHashFailsResave | PasswordModel.ModifiedOnlyResaveSucceeds, PasswordModel.PasswordDocument.Save |

The dashboard class keeps the save as written, so its behaviour matches the source. The corrected
save and its proofs stand beside it. In the same way, the server handlers call
`PasswordModel.PasswordDocument.Save` with `validateModifiedOnly` false, as the source does. The
corrected call is the same method with `validateModifiedOnly` true.
