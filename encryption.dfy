/**
 * The client-side secret-handling core: `encryptPassword`, `decryptPassword`,
 * `encryptPin`, `decryptPin` and `verifyPin`, all over one process-wide key.
 *
 * The AES passphrase cipher itself is a foreign library. It is represented here by a
 * transparent stand-in (AesEncrypt / AesDecrypt) that has the interface laws the
 * vault relies on: decryption under the same key returns the plaintext, a fresh salt
 * gives a different envelope, a non-envelope string makes the library fail (the
 * legacy-plaintext case), and a key with a different fingerprint makes it fail too.
 * It is not a cipher and makes no confidentiality claim.
 */
module Encryption {
  import opened Wrappers
  import opened Text

  /** The literal used when VITE_ENCRYPTION_KEY is not configured. */
  const DEFAULT_KEY := "your-secret-encryption-key-change-this-in-production"

  /** `import.meta.env.VITE_ENCRYPTION_KEY || DEFAULT_KEY`: an unset or empty variable selects the fallback. */
  function ResolveKey(env: Option<string>): (key: string)
    ensures key != ""
    ensures env.Some? && env.value != "" ==> key == env.value
    ensures (env.None? || env.value == "") ==> key == DEFAULT_KEY
  {
    if env.Some? && env.value != "" then env.value else DEFAULT_KEY
  }

  // ---------------------------------------------------------------------------
  // Stand-in for CryptoJS.AES in passphrase mode.
  // ---------------------------------------------------------------------------

  /** The base64 text every OpenSSL-format ("Salted__") envelope starts with. */
  const ENVELOPE_PREFIX := "U2FsdGVkX1"
  const SALT_LENGTH := 8
  /** Prefix, salt and the key fingerprint precede the payload. */
  const HEADER_LENGTH := |ENVELOPE_PREFIX| + SALT_LENGTH + 1

  /** The random 8-byte salt drawn for each encryption. */
  type Salt = s: string | |s| == SALT_LENGTH witness "00000000"

  function CodeSum(key: string): nat {
    if key == [] then 0 else CodeSum(key[..|key| - 1]) + key[|key| - 1] as int
  }

  /** A one-character fingerprint of the key (below the surrogate range, so always a char). */
  function KeyTag(key: string): char {
    (CodeSum(key) % 0xD800) as char
  }

  function AesEncrypt(key: string, plain: string, salt: Salt): (envelope: string)
    ensures |envelope| == HEADER_LENGTH + |plain|
    ensures StartsWith(envelope, ENVELOPE_PREFIX)
  {
    ENVELOPE_PREFIX + salt + [KeyTag(key)] + plain
  }

  /**
   * `CryptoJS.AES.decrypt(envelope, key).toString(Utf8)`: None when the library throws
   * (the text is not an envelope, or was made under another key), otherwise the decoded text.
   */
  function AesDecrypt(key: string, envelope: string): (r: Option<string>)
    ensures !StartsWith(envelope, ENVELOPE_PREFIX) ==> r.None?
    ensures r.Some? ==> |envelope| == HEADER_LENGTH + |r.value| && envelope[|envelope| - |r.value|..] == r.value
  {
    if |envelope| >= HEADER_LENGTH && StartsWith(envelope, ENVELOPE_PREFIX)
       && envelope[HEADER_LENGTH - 1] == KeyTag(key)
    then Some(envelope[HEADER_LENGTH..])
    else None
  }

  lemma AesRoundTrip(key: string, plain: string, salt: Salt)
    ensures AesDecrypt(key, AesEncrypt(key, plain, salt)) == Some(plain)
  {
    var e := AesEncrypt(key, plain, salt);
    assert e[HEADER_LENGTH - 1] == KeyTag(key);
    assert e[HEADER_LENGTH..] == plain;
  }

  // ---------------------------------------------------------------------------
  // The repository's functions.
  // ---------------------------------------------------------------------------

  const ENCRYPT_PASSWORD_ERROR := "Failed to encrypt password"
  const DECRYPT_PASSWORD_ERROR := "Failed to decrypt password"
  const ENCRYPT_PIN_ERROR := "Failed to encrypt PIN"
  const DECRYPT_PIN_ERROR := "Failed to decrypt PIN"

  /** `encryptPassword`: the stand-in never throws, so the re-raise branch is not reachable here. */
  function EncryptPassword(key: string, password: string, salt: Salt): (envelope: string)
    ensures AesDecrypt(key, envelope) == Some(password)
  {
    AesRoundTrip(key, password, salt);
    AesEncrypt(key, password, salt)
  }

  /** `encryptPin`: the same cipher under the same key as EncryptPassword. */
  function EncryptPin(key: string, pin: string, salt: Salt): (envelope: string)
    ensures AesDecrypt(key, envelope) == Some(pin)
  {
    AesRoundTrip(key, pin, salt);
    AesEncrypt(key, pin, salt)
  }

  /**
   * The body shared by both decrypt functions: a library failure and an empty decode
   * both become the one error `message`.
   */
  function DecryptOrFail(key: string, envelope: string, message: string): (r: Result<string, string>)
    ensures r.Success? <==> (AesDecrypt(key, envelope).Some? && AesDecrypt(key, envelope).value != "")
    ensures r.Success? ==> AesDecrypt(key, envelope) == Some(r.value) && r.value != ""
    ensures r.Failure? ==> r.error == message
  {
    match AesDecrypt(key, envelope)
    case None => Failure(message)
    case Some(plain) => if plain == "" then Failure(message) else Success(plain)
  }

  /** `decryptPassword`: the plaintext, never empty; every failure is the one fixed error. */
  function DecryptPassword(key: string, envelope: string): (r: Result<string, string>)
    ensures r.Success? <==> (AesDecrypt(key, envelope).Some? && AesDecrypt(key, envelope).value != "")
    ensures r.Success? ==> AesDecrypt(key, envelope) == Some(r.value) && r.value != ""
    ensures r.Failure? ==> r.error == DECRYPT_PASSWORD_ERROR
  {
    DecryptOrFail(key, envelope, DECRYPT_PASSWORD_ERROR)
  }

  /** `decryptPin`: as DecryptPassword, with the PIN error message. */
  function DecryptPin(key: string, envelope: string): (r: Result<string, string>)
    ensures r.Success? <==> (AesDecrypt(key, envelope).Some? && AesDecrypt(key, envelope).value != "")
    ensures r.Success? ==> AesDecrypt(key, envelope) == Some(r.value) && r.value != ""
    ensures r.Failure? ==> r.error == DECRYPT_PIN_ERROR
  {
    DecryptOrFail(key, envelope, DECRYPT_PIN_ERROR)
  }

  /**
   * `verifyPin`: compare the candidate with the decrypted stored PIN; only when decryption
   * fails, compare it with the stored string itself (legacy plaintext PINs). Never throws.
   */
  function VerifyPin(key: string, plainPin: string, encryptedPin: string): (ok: bool)
    ensures AesDecrypt(key, encryptedPin).Some? && AesDecrypt(key, encryptedPin).value != ""
      ==> (ok <==> plainPin == AesDecrypt(key, encryptedPin).value)
    ensures !(AesDecrypt(key, encryptedPin).Some? && AesDecrypt(key, encryptedPin).value != "")
      ==> (ok <==> plainPin == encryptedPin)
  {
    match DecryptPin(key, encryptedPin)
    case Success(decrypted) => plainPin == decrypted
    case Failure(_) => plainPin == encryptedPin
  }

  // ---------------------------------------------------------------------------
  // Properties.
  // ---------------------------------------------------------------------------

  /** The password and PIN functions are one cipher under one key; only the error text differs. */
  lemma PasswordAndPinShareCipher(key: string, plain: string, envelope: string, salt: Salt)
    ensures EncryptPassword(key, plain, salt) == EncryptPin(key, plain, salt)
    ensures DecryptPassword(key, envelope).Success? == DecryptPin(key, envelope).Success?
    ensures DecryptPassword(key, envelope).Success? ==>
      DecryptPassword(key, envelope).value == DecryptPin(key, envelope).value
  {
  }

  /** Every non-empty password and PIN decrypts back to itself. */
  lemma RoundTrip(key: string, plain: string, salt: Salt)
    requires plain != ""
    ensures DecryptPassword(key, EncryptPassword(key, plain, salt)) == Success(plain)
    ensures DecryptPin(key, EncryptPin(key, plain, salt)) == Success(plain)
  {
  }

  /** The empty plaintext encrypts, but its envelope decodes empty and so is rejected. */
  lemma EmptyDoesNotRoundTrip(key: string, salt: Salt)
    ensures DecryptPassword(key, EncryptPassword(key, "", salt)) == Failure(DECRYPT_PASSWORD_ERROR)
    ensures DecryptPin(key, EncryptPin(key, "", salt)) == Failure(DECRYPT_PIN_ERROR)
  {
  }

  /** Two salts give two envelopes for the same plaintext; both decrypt to it. */
  lemma SaltMakesEncryptionNondeterministic(key: string, plain: string, s1: Salt, s2: Salt)
    requires s1 != s2
    ensures EncryptPassword(key, plain, s1) != EncryptPassword(key, plain, s2)
    ensures AesDecrypt(key, EncryptPassword(key, plain, s1)) == AesDecrypt(key, EncryptPassword(key, plain, s2))
  {
    var e1 := EncryptPassword(key, plain, s1);
    var e2 := EncryptPassword(key, plain, s2);
    assert e1[|ENVELOPE_PREFIX|..|ENVELOPE_PREFIX| + SALT_LENGTH] == s1;
    assert e2[|ENVELOPE_PREFIX|..|ENVELOPE_PREFIX| + SALT_LENGTH] == s2;
  }

  /** An envelope made under a key with another fingerprint does not decrypt. */
  lemma OtherKeyFails(k1: string, k2: string, plain: string, salt: Salt)
    requires KeyTag(k1) != KeyTag(k2)
    ensures DecryptPassword(k2, EncryptPassword(k1, plain, salt)).Failure?
    ensures DecryptPin(k2, EncryptPin(k1, plain, salt)).Failure?
  {
    var e := AesEncrypt(k1, plain, salt);
    assert e[HEADER_LENGTH - 1] == KeyTag(k1);
  }

  /** A stored string that is not an envelope at all is compared as plaintext. */
  lemma VerifyLegacyPin(key: string, candidate: string, stored: string)
    requires |stored| < HEADER_LENGTH
    ensures VerifyPin(key, candidate, stored) <==> candidate == stored
  {
  }

  /** A PIN encrypted by EncryptPin is accepted exactly when the candidate is that PIN. */
  lemma VerifyEncryptedPin(key: string, pin: string, candidate: string, salt: Salt)
    requires pin != ""
    ensures VerifyPin(key, candidate, EncryptPin(key, pin, salt)) <==> candidate == pin
  {
  }

  /** VerifyEncryptedPin for every candidate at once. */
  lemma PinEnvelopeAcceptsOnlyPin(key: string, pin: string, salt: Salt)
    ensures pin != "" ==> forall c :: VerifyPin(key, c, EncryptPin(key, pin, salt)) <==> c == pin
  {
    if pin != "" {
      forall c ensures VerifyPin(key, c, EncryptPin(key, pin, salt)) <==> c == pin {
        VerifyEncryptedPin(key, pin, c, salt);
      }
    }
  }

  /** The stored envelope itself never unlocks the PIN it encrypts. */
  lemma EnvelopeDoesNotUnlock(key: string, pin: string, salt: Salt)
    requires pin != ""
    ensures !VerifyPin(key, EncryptPin(key, pin, salt), EncryptPin(key, pin, salt))
  {
    var e := EncryptPin(key, pin, salt);
    assert |e| == HEADER_LENGTH + |pin|;
  }

  /**
   * An encrypted empty PIN falls into the legacy branch: only its own envelope text
   * matches it, and the empty candidate does not.
   */
  lemma EncryptedEmptyPinIsLegacy(key: string, candidate: string, salt: Salt)
    ensures VerifyPin(key, candidate, EncryptPin(key, "", salt)) <==> candidate == EncryptPin(key, "", salt)
    ensures !VerifyPin(key, "", EncryptPin(key, "", salt))
  {
  }
}
