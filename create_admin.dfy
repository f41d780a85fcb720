/**
 * Creating an admin account: input validation, the two remote steps (taken
 * here as their outcomes), and the mapping from error codes to messages.
 */
module CreateAdmin {
  import opened Wrappers
  import opened Catalog
  import opened Text

  /** What the authentication service answered to the sign-up request. */
  datatype AuthOutcome = AccountCreated(uid: string, email: Option<string>) | AuthFailed(code: Option<string>, message: string)

  /** What the document store answered to writing the admin record. */
  datatype StoreOutcome = Stored | StoreFailed(code: Option<string>, message: string)

  /** The record written to the `admins` collection. */
  datatype AdminRecord = AdminRecord(email: string, name: string, role: string, createdAt: string, lastUpdated: string)

  /** The function's result object. */
  datatype CreateResult = Created(uid: string, email: Option<string>) | Failed(error: string, code: Option<string>)

  const InvalidEmail := "Invalid email address"
  const ShortPassword := "Password must be at least 6 characters"

  /** The messages the error handler substitutes for known error codes. */
  const KnownMessages: map<string, string> := map[
    "auth/email-already-in-use" := "Email already in use",
    "auth/invalid-email" := "Invalid email format",
    "auth/weak-password" := "Password is too weak",
    "auth/network-request-failed" := "Network error. Please check your connection"]

  /** `email && email.includes("@")`: a string containing `@` is never empty, so never falsy. */
  predicate EmailOk(email: Option<string>)
    ensures EmailOk(email) <==> email.Some? && '@' in email.value
  {
    Truthy(email) && Contains(email.value, "@")
  }

  /** Code units a character takes in UTF-16: two for a character beyond the basic plane. */
  function Utf16Units(c: char): (r: nat)
    ensures 1 <= r <= 2
    ensures r == 2 <==> c as int >= 0x1_0000
  {
    if c as int >= 0x1_0000 then 2 else 1
  }

  /** `s.length` in JavaScript: the number of UTF-16 code units, not of characters. */
  function Utf16Length(s: string): (r: nat)
    ensures |s| <= r <= 2 * |s|
  {
    if s == [] then 0 else Utf16Units(s[0]) + Utf16Length(s[1..])
  }

  /** Text of basic-plane characters has one code unit per character. */
  lemma {:induction false} BasicPlaneLength(s: string)
    requires forall i :: 0 <= i < |s| ==> s[i] as int < 0x1_0000
    ensures Utf16Length(s) == |s|
  {
    if s != [] {
      BasicPlaneLength(s[1..]);
    }
  }

  /** `password.length >= 6`, the length counted in UTF-16 code units. */
  predicate PasswordOk(password: Option<string>)
    ensures password.Some? && |password.value| >= 6 ==> PasswordOk(password)
    ensures PasswordOk(password) ==> password.Some? && |password.value| >= 3
  {
    password.Some? && Utf16Length(password.value) >= 6
  }

  /** Three characters beyond the basic plane are six code units: long enough. */
  lemma ThreeAstralCharactersAreLongEnough()
    ensures PasswordOk(Some("\U{1F600}\U{1F600}\U{1F600}"))
  {
    var s := "\U{1F600}\U{1F600}\U{1F600}";
    assert s[1..][1..][1..] == [];
    assert Utf16Length(s[1..][1..]) == 2;
  }

  /** A password of six basic-plane characters or more is accepted; five or fewer is refused. */
  lemma BasicPlanePasswords(password: string)
    requires forall i :: 0 <= i < |password| ==> password[i] as int < 0x1_0000
    ensures PasswordOk(Some(password)) <==> |password| >= 6
  {
    BasicPlaneLength(password);
  }

  /** The input checks, email first: the message of the first that fails. */
  function Validate(email: Option<string>, password: Option<string>): (r: Option<string>)
    ensures r.None? <==> EmailOk(email) && PasswordOk(password)
    ensures !EmailOk(email) ==> r == Some(InvalidEmail)
    ensures EmailOk(email) && !PasswordOk(password) ==> r == Some(ShortPassword)
  {
    if !EmailOk(email) then Some(InvalidEmail)
    else if !PasswordOk(password) then Some(ShortPassword)
    else None
  }

  /**
   * The message reported for a caught error: a fixed text for the four known
   * codes, otherwise the error's own message.
   */
  function ErrorMessage(code: Option<string>, message: string): (r: string)
    ensures code.Some? && code.value in KnownMessages ==> r == KnownMessages[code.value]
    ensures (code.None? || code.value !in KnownMessages) ==> r == message
  {
    match code
    case Some(c) =>
      if c == "auth/email-already-in-use" then "Email already in use"
      else if c == "auth/invalid-email" then "Invalid email format"
      else if c == "auth/weak-password" then "Password is too weak"
      else if c == "auth/network-request-failed" then "Network error. Please check your connection"
      else message
    case None => message
  }

  /** The four known codes have four different messages. */
  lemma KnownMessagesDistinct(a: string, b: string)
    requires a in KnownMessages && b in KnownMessages && a != b
    ensures ErrorMessage(Some(a), "") != ErrorMessage(Some(b), "")
  {
  }

  /** The `role` parameter's default applies when no role is passed. */
  function RoleOrDefault(role: Option<string>): (r: string)
    ensures role.None? ==> r == "admin"
    ensures role.Some? ==> r == role.value
  {
    role.GetOr("admin")
  }

  /**
   * The record written for a new admin. The clock is read once for each
   * stamp, so the two readings are two parameters.
   */
  function AdminDocument(email: string, name: string, role: Option<string>, createdAt: string, lastUpdated: string): (r: AdminRecord)
    ensures r.email == email && r.name == name && r.role == RoleOrDefault(role)
    ensures r.createdAt == createdAt && r.lastUpdated == lastUpdated
  {
    AdminRecord(email, name, RoleOrDefault(role), createdAt, lastUpdated)
  }

  /** Whether the function gets as far as asking for an account. */
  predicate AccountRequested(email: Option<string>, password: Option<string>) {
    Validate(email, password).None?
  }

  /**
   * `createAdmin`: validation failures are reported without contacting the
   * services; otherwise the first failing remote step decides the error,
   * and success reports the new account's id and email.
   */
  function CreateAdmin(email: Option<string>, password: Option<string>, auth: AuthOutcome, store: StoreOutcome): (r: CreateResult)
    ensures !AccountRequested(email, password) ==> r == Failed(Validate(email, password).value, None)
    ensures !EmailOk(email) ==> r == Failed(InvalidEmail, None)
    ensures r.Created? <==> AccountRequested(email, password) && auth.AccountCreated? && store.Stored?
    ensures r.Created? ==> r.uid == auth.uid && r.email == auth.email
    ensures AccountRequested(email, password) && auth.AuthFailed? ==>
      r == Failed(ErrorMessage(auth.code, auth.message), auth.code)
    ensures AccountRequested(email, password) && auth.AccountCreated? && store.StoreFailed? ==>
      r == Failed(ErrorMessage(store.code, store.message), store.code)
  {
    match Validate(email, password)
    case Some(message) => Failed(ErrorMessage(None, message), None)
    case None =>
      match auth
      case AuthFailed(code, message) => Failed(ErrorMessage(code, message), code)
      case AccountCreated(uid, accountEmail) =>
        match store
        case StoreFailed(code, message) => Failed(ErrorMessage(code, message), code)
        case Stored => Created(uid, accountEmail)
  }

  /** Every failure carries a non-empty message when the service's messages are non-empty. */
  lemma FailuresHaveMessages(email: Option<string>, password: Option<string>, auth: AuthOutcome, store: StoreOutcome)
    requires auth.AuthFailed? ==> auth.message != ""
    requires store.StoreFailed? ==> store.message != ""
    ensures CreateAdmin(email, password, auth, store).Failed? ==> CreateAdmin(email, password, auth, store).error != ""
  {
  }
}
