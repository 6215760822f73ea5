/**
 * The API-key gate of the application shell. Browser storage is the
 * `storedKey` field; `handleValidate` is split at its `await` into
 * `BeginValidate` and `FinishValidate`, and what the backend answered is a
 * parameter of the second.
 */
module Auth {
  import opened Wrappers
  import opened JsText
  import opened Api

  const EnterKey := "Please enter your API key"
  const InvalidKey := "Invalid API Key"

  datatype AuthState = AuthState(
    storedKey: Option<string>,
    apiKey: string,
    isAuthenticated: bool,
    isValidating: bool,
    user: Option<User>,
    error: string)

  /** The shell before its startup effect, over whatever the browser has stored. */
  function Initial(stored: Option<string>): (r: AuthState)
    ensures r.storedKey == stored
    ensures !r.isAuthenticated && !r.isValidating && r.user.None?
    ensures r.apiKey == "" && r.error == ""
  {
    AuthState(stored, "", false, false, None, "")
  }

  /** `keyToValidate || apiKey`: an absent or empty argument falls back to the input field. */
  function KeyToUse(arg: Option<string>, input: string): (k: string)
    ensures arg.Some? && arg.value != "" ==> k == arg.value
    ensures arg.None? || arg.value == "" ==> k == input
  {
    OrElse(arg, input)
  }

  /**
   * `handleValidate` up to `await validateApiKey()`. A blank key only sets the
   * error. Otherwise validation starts, the error is cleared and the trimmed
   * key is stored; the second component is the key the request carries.
   */
  function BeginValidate(s: AuthState, arg: Option<string>): (r: (AuthState, Option<string>))
    ensures IsBlank(KeyToUse(arg, s.apiKey)) ==> r.1.None? && r.0 == s.(error := EnterKey)
    ensures !IsBlank(KeyToUse(arg, s.apiKey)) ==>
      && r.1 == Some(Trim(KeyToUse(arg, s.apiKey)))
      && r.0 == s.(isValidating := true, error := "", storedKey := r.1)
  {
    var key := KeyToUse(arg, s.apiKey);
    var k := Trim(key);
    if k == "" then
      (s.(error := EnterKey), None)
    else
      (s.(isValidating := true, error := "", storedKey := Some(k)), Some(k))
  }

  /** The key stored and sent is non-empty, and is its own trimmed form. */
  lemma StoredKeyIsTrimmed(s: AuthState, arg: Option<string>)
    ensures BeginValidate(s, arg).1.Some? ==>
      var k := BeginValidate(s, arg).1.value;
      k != "" && Trim(k) == k && BeginValidate(s, arg).0.storedKey == Some(k)
  {
  }

  /**
   * `handleValidate` after `validateApiKey` settles. Validation ends either way;
   * a valid key signs the user in, an invalid one is removed from storage and
   * its error shown, falling back to the generic text.
   */
  function FinishValidate(s: AuthState, result: Validation): (r: AuthState)
    ensures !r.isValidating
    ensures r.apiKey == s.apiKey
    ensures result.Valid? ==>
      r.isAuthenticated && r.user == Some(result.user) && r.storedKey == s.storedKey && r.error == s.error
    ensures result.Invalid? ==>
      && r.storedKey.None? && r.isAuthenticated == s.isAuthenticated && r.user == s.user
      && r.error == OrElse(result.error, InvalidKey) && r.error != ""
  {
    var s1 := s.(isValidating := false);
    match result
    case Valid(u) => s1.(user := Some(u), isAuthenticated := true)
    case Invalid(e) => s1.(storedKey := None, error := OrElse(e, InvalidKey))
  }

  /** Both halves of `handleValidate`, for a backend that answers `result`. */
  function Validate(s: AuthState, arg: Option<string>, result: Validation): (r: AuthState)
    ensures IsBlank(KeyToUse(arg, s.apiKey)) ==> r == s.(error := EnterKey)
    ensures !IsBlank(KeyToUse(arg, s.apiKey)) ==>
      && !r.isValidating
      && r.storedKey == (if result.Valid? then Some(Trim(KeyToUse(arg, s.apiKey))) else None)
      && (r.isAuthenticated <==> result.Valid? || s.isAuthenticated)
      && r.error == (if result.Valid? then "" else OrElse(result.error, InvalidKey))
  {
    var (s1, sent) := BeginValidate(s, arg);
    if sent.None? then s1 else FinishValidate(s1, result)
  }

  /** `handleLogout`: nothing stored, nobody signed in, an empty key field. */
  function Logout(s: AuthState): (r: AuthState)
    ensures r.storedKey.None? && !r.isAuthenticated && r.user.None? && r.apiKey == ""
    ensures r.error == s.error && r.isValidating == s.isValidating
  {
    s.(storedKey := None, isAuthenticated := false, user := None, apiKey := "")
  }

  /**
   * The startup effect: a stored key (a non-empty string) is copied into the
   * key field and validated; the second component is the key sent to the
   * backend, if validation got that far.
   */
  function Startup(stored: Option<string>): (r: (AuthState, Option<string>))
    ensures (stored.None? || stored.value == "") ==> r == (Initial(stored), None)
    ensures r.1.Some? <==> stored.Some? && !IsBlank(stored.value)
    ensures r.1.Some? ==>
      && r.1.value == Trim(stored.value) && r.0.storedKey == r.1
      && r.0.isValidating && !r.0.isAuthenticated && r.0.user.None? && r.0.error == ""
    ensures stored.Some? && stored.value != "" ==> r.0.apiKey == stored.value
    ensures stored.Some? && stored.value != "" && IsBlank(stored.value) ==>
      r.0 == Initial(stored).(apiKey := stored.value, error := EnterKey)
  {
    var s := Initial(stored);
    if stored.Some? && stored.value != "" then
      BeginValidate(s.(apiKey := stored.value), Some(stored.value))
    else (s, None)
  }

  /** At startup a request is sent exactly when a non-blank key is stored, and it carries that key trimmed. */
  lemma StartupSendsStoredKey(stored: Option<string>)
    ensures Startup(stored).1.Some? <==> stored.Some? && !IsBlank(stored.value)
    ensures Startup(stored).1.Some? ==> Startup(stored).1.value == Trim(stored.value)
    ensures Startup(stored).1.Some? ==> Startup(stored).0.isValidating && !Startup(stored).0.isAuthenticated
  {
  }

  /** A rejected key is gone from storage and the shell stays signed out. */
  lemma InvalidKeyNeverAuthenticates(s: AuthState, arg: Option<string>, e: Option<string>)
    requires !s.isAuthenticated
    ensures Validate(s, arg, Invalid(e)).storedKey.None? || IsBlank(KeyToUse(arg, s.apiKey))
    ensures !Validate(s, arg, Invalid(e)).isAuthenticated
  {
  }

  /** After a rejected key, the next startup validates nothing. */
  lemma RejectedKeyNotRetriedAtStartup(s: AuthState, arg: Option<string>, e: Option<string>)
    requires !IsBlank(KeyToUse(arg, s.apiKey))
    ensures Startup(Validate(s, arg, Invalid(e)).storedKey).1.None?
  {
  }

  /** After an accepted key, the next startup validates the very same key. */
  lemma AcceptedKeyRevalidatedAtStartup(s: AuthState, arg: Option<string>, u: User)
    requires !IsBlank(KeyToUse(arg, s.apiKey))
    ensures Validate(s, arg, Valid(u)).isAuthenticated
    ensures Startup(Validate(s, arg, Valid(u)).storedKey).1 == BeginValidate(s, arg).1
  {
    var k := Trim(KeyToUse(arg, s.apiKey));
    TrimIdempotent(KeyToUse(arg, s.apiKey));
    assert Trim(k) == k;
  }

  /** Signing out of a settled console without an error message returns the shell to its first state over empty storage. */
  lemma LogoutRestoresInitial(s: AuthState)
    requires !s.isValidating && s.error == ""
    ensures Logout(s) == Initial(None)
  {
  }

  /** Logging out twice is logging out once, and after it the next startup validates nothing. */
  lemma LogoutIdempotent(s: AuthState)
    ensures Logout(Logout(s)) == Logout(s)
    ensures Startup(Logout(s).storedKey) == (Initial(None), None)
  {
  }
}
