/** Authentication rules of the multi-tenant API: the password strength
    check, the organisation-slug and role validators of the request models,
    and the guard chains of the authentication dependencies. Character
    classes are ASCII (see Strings). */
module Auth {
  import opened Common
  import opened Strings

  // ---------------------------------------------------------------------
  // Password strength (api/auth/password_utils.py)

  const MinPasswordLength := 8

  const TooShortMessage := "Password must be at least 8 characters long"
  const NoUpperMessage := "Password must contain at least one uppercase letter"
  const NoLowerMessage := "Password must contain at least one lowercase letter"
  const NoDigitMessage := "Password must contain at least one digit"

  predicate HasUpper(s: string) { exists i | 0 <= i < |s| :: IsAsciiUpper(s[i]) }
  predicate HasLower(s: string) { exists i | 0 <= i < |s| :: IsAsciiLower(s[i]) }
  predicate HasDigit(s: string) { exists i | 0 <= i < |s| :: IsDigit(s[i]) }

  /** `is_strong_password`: the length first, then an uppercase letter, a
      lowercase letter and a digit, reporting the first rule broken. */
  function IsStrongPassword(password: string): (r: (bool, string))
    ensures r.0 <==> r.1 == ""
  {
    if |password| < MinPasswordLength then (false, TooShortMessage)
    else if !HasUpper(password) then (false, NoUpperMessage)
    else if !HasLower(password) then (false, NoLowerMessage)
    else if !HasDigit(password) then (false, NoDigitMessage)
    else (true, "")
  }

  /** Every rule the password breaks, in the order the rules are listed. */
  function BrokenRules(password: string): (r: seq<string>) {
    (if |password| < MinPasswordLength then [TooShortMessage] else [])
    + (if !HasUpper(password) then [NoUpperMessage] else [])
    + (if !HasLower(password) then [NoLowerMessage] else [])
    + (if !HasDigit(password) then [NoDigitMessage] else [])
  }

  /** The check accepts exactly the passwords that break no rule, and
      otherwise reports the first rule broken and only that one. */
  lemma PasswordFirstBrokenRule(password: string)
    ensures var r := IsStrongPassword(password);
      && (r.0 <==> BrokenRules(password) == [])
      && (!r.0 ==> r.1 == BrokenRules(password)[0])
  {
  }

  /** Accepted exactly when it is long enough and has all three classes;
      eight characters are enough. */
  lemma StrongPasswordIff(password: string)
    ensures IsStrongPassword(password).0 <==>
      |password| >= 8 && HasUpper(password) && HasLower(password) && HasDigit(password)
  {
  }

  lemma PasswordSamples()
    ensures IsStrongPassword("Abcdefg1") == (true, "")
    ensures IsStrongPassword("Abcdef1") == (false, TooShortMessage)
    ensures IsStrongPassword("abcdefg1") == (false, NoUpperMessage)
    ensures IsStrongPassword("ABCDEFGH") == (false, NoLowerMessage)
  {
    assert IsAsciiUpper("Abcdefg1"[0]) && IsAsciiLower("Abcdefg1"[1]) && IsDigit("Abcdefg1"[7]);
    assert IsAsciiUpper("ABCDEFGH"[0]);
  }

  // ---------------------------------------------------------------------
  // Request models (api/auth/models.py)

  /** `str.isalnum()`: non-empty and every character a letter or a digit. */
  predicate IsAlnumText(s: string) { |s| > 0 && forall i | 0 <= i < |s| :: IsAlnum(s[i]) }

  /** `str.islower()`: some cased character, and none of them upper case. */
  predicate IsLowerText(s: string) {
    (exists i | 0 <= i < |s| :: IsAsciiLower(s[i])) && forall i | 0 <= i < |s| :: !IsAsciiUpper(s[i])
  }

  const SlugMessage := "Slug must be lowercase alphanumeric with hyphens only"

  /** The core test of `validate_slug`. */
  predicate SlugAccepted(v: string) {
    IsAlnumText(Replace(Replace(v, "-", ""), "_", "")) && IsLowerText(v)
  }

  /** `validate_slug`: None passes unchanged; a value passes unchanged when,
      without its hyphens and underscores, it is alphanumeric, and it is
      lower case. */
  function ValidateSlug(v: Option<string>): (r: Result<Option<string>, string>)
    ensures r.Ok? ==> r.value == v
    ensures v.None? ==> r.Ok?
    ensures r.Err? ==> r.error == SlugMessage
  {
    match v
    case None => Ok(None)
    case Some(s) => if SlugAccepted(s) then Ok(v) else Err(SlugMessage)
  }

  /** A character a slug may hold. */
  predicate SlugChar(c: char) { IsAsciiLower(c) || IsDigit(c) || c == '-' || c == '_' }

  /** In ASCII terms a slug passes exactly when it is made of lower-case
      letters, digits, hyphens and underscores and holds at least one letter.
      So underscores pass, and a slug of digits only does not. */
  lemma SlugAcceptedIff(v: string)
    ensures SlugAccepted(v) <==> (forall i | 0 <= i < |v| :: SlugChar(v[i])) && exists i | 0 <= i < |v| :: IsAsciiLower(v[i])
  {
    var t := Replace(Replace(v, "-", ""), "_", "");
    forall x ensures x in t <==> x in v && x != '-' && x != '_' {
      ReplaceCharMembers(v, '-', x);
      ReplaceCharMembers(Replace(v, "-", ""), '_', x);
    }
    if SlugAccepted(v) {
      forall i | 0 <= i < |v| ensures SlugChar(v[i]) {
        if v[i] != '-' && v[i] != '_' {
          assert v[i] in t;
          var k :| 0 <= k < |t| && t[k] == v[i];
          assert IsAlnum(t[k]);
        }
      }
    }
    if (forall i | 0 <= i < |v| :: SlugChar(v[i])) && exists i | 0 <= i < |v| :: IsAsciiLower(v[i]) {
      var j :| 0 <= j < |v| && IsAsciiLower(v[j]);
      assert v[j] in t;
      forall k | 0 <= k < |t| ensures IsAlnum(t[k]) {
        assert t[k] in v;
      }
    }
  }

  /** Underscores pass, although the error message mentions only hyphens. */
  lemma SlugUnderscorePasses()
    ensures SlugAccepted("a_b")
  {
    SlugAcceptedIff("a_b");
    assert IsAsciiLower("a_b"[0]);
    assert forall i | 0 <= i < 3 :: SlugChar("a_b"[i]);
  }

  /** A slug of digits only has no cased character, so it fails `islower`. */
  lemma SlugDigitsRejected()
    ensures !SlugAccepted("123")
  {
    SlugAcceptedIff("123");
    assert forall i | 0 <= i < 3 :: !IsAsciiLower("123"[i]);
  }

  /** `organization_slug`: the length bounds of the field come before the
      slug validator. */
  function ValidateSlugField(v: Option<string>): (r: Result<Option<string>, string>)
    ensures r.Ok? <==> v.None? || (2 <= |v.value| <= 100 && SlugAccepted(v.value))
    ensures r.Ok? ==> r.value == v
  {
    if v.Some? && !(2 <= |v.value| <= 100) then Err("String length out of bounds")
    else ValidateSlug(v)
  }

  /** The roles `^(owner|admin|manager|agent)$` admits for an invitation or a
      role update. */
  const Roles: set<string> := {"owner", "admin", "manager", "agent"}

  function ValidateRole(role: string): (r: Result<string, string>)
    ensures r.Ok? <==> role in Roles
    ensures r.Ok? ==> r.value == role
  {
    if role in Roles then Ok(role) else Err("String should match pattern")
  }

  /** The bounds of the signup fields: the organisation name 2..255, the
      password at least 8, first and last names 1..100, the phone at most 50
      characters. */
  predicate SignupFieldsValid(organizationName: string, password: string, firstName: string,
                              lastName: string, phone: Option<string>) {
    2 <= |organizationName| <= 255 && |password| >= MinPasswordLength
    && 1 <= |firstName| <= 100 && 1 <= |lastName| <= 100
    && (phone.Some? ==> |phone.value| <= 50)
  }

  datatype SignupRequest = SignupRequest(
    organizationName: string, organizationSlug: Option<string>, email: string,
    password: string, firstName: string, lastName: string, phone: Option<string>)

  /** Whether a `SignupRequest` passes its model's validation: the field
      bounds, the e-mail (`EmailStr`, whose check is the `emailValid`
      oracle), and the slug's length bounds and validator. */
  function ValidSignup(req: SignupRequest, emailValid: bool): (ok: bool)
    ensures ok <==> (emailValid
      && SignupFieldsValid(req.organizationName, req.password, req.firstName, req.lastName, req.phone)
      && (req.organizationSlug.None? || (2 <= |req.organizationSlug.value| <= 100 && SlugAccepted(req.organizationSlug.value))))
  {
    emailValid && SignupFieldsValid(req.organizationName, req.password, req.firstName, req.lastName, req.phone)
    && ValidateSlugField(req.organizationSlug).Ok?
  }

  // ---------------------------------------------------------------------
  // Dependencies (api/auth/dependencies.py)

  datatype CurrentUser = CurrentUser(
    id: int, email: string, organizationId: int, role: string,
    firstName: Option<string>, lastName: Option<string>, isActive: bool)

  /** Python truthiness of an optional string. */
  predicate Truthy(s: Option<string>) { s.Some? && s.value != "" }

  /** `full_name`: "first last" when both are set, otherwise the first of
      first name, last name and email that is set. */
  function FullName(u: CurrentUser): (r: string)
    ensures Truthy(u.firstName) && Truthy(u.lastName) ==> r == u.firstName.value + " " + u.lastName.value
    ensures Truthy(u.firstName) && !Truthy(u.lastName) ==> r == u.firstName.value
    ensures !Truthy(u.firstName) && Truthy(u.lastName) ==> r == u.lastName.value
    ensures !Truthy(u.firstName) && !Truthy(u.lastName) ==> r == u.email
  {
    if Truthy(u.firstName) && Truthy(u.lastName) then u.firstName.value + " " + u.lastName.value
    else if Truthy(u.firstName) then u.firstName.value
    else if Truthy(u.lastName) then u.lastName.value
    else u.email
  }

  /** A full name falls back to the email only when neither name is set, and
      is empty only when every source of it is. */
  lemma FullNameNonEmpty(u: CurrentUser)
    ensures FullName(u) == "" ==> u.email == "" && !Truthy(u.firstName) && !Truthy(u.lastName)
  {
  }

  /** The claims `verify_token` hands back for a valid access token. */
  datatype TokenPayload = TokenPayload(userId: Option<int>, email: Option<string>)

  /** The row of users joined with organizations. */
  datatype UserRow = UserRow(
    id: int, email: string, organizationId: int, role: string,
    firstName: Option<string>, lastName: Option<string>,
    isActive: bool, organizationIsActive: bool)

  /** What the database lookup by user id gives: a row, no row, or an
      exception. */
  datatype Lookup = Found(row: UserRow) | NoRow | LookupFailed

  const CredentialsError := HttpError(401, "Could not validate credentials")
  const InactiveUserError := HttpError(403, "User account is inactive")
  const InactiveOrganizationError := HttpError(403, "Organization is inactive")

  /** `get_current_user`. `payload` is what token verification gave (None for
      an invalid token); `lookup` is the database query by user id. */
  function GetCurrentUser(payload: Option<TokenPayload>, lookup: int -> Lookup): (r: Result<CurrentUser, HttpError>)
    ensures r.Ok? ==> payload.Some? && payload.value.userId.Some? && payload.value.email.Some?
    ensures r.Ok? ==> lookup(payload.value.userId.value).Found?
    ensures r.Ok? ==> var row := lookup(payload.value.userId.value).row;
      r.value == CurrentUser(row.id, row.email, row.organizationId, row.role, row.firstName, row.lastName, row.isActive)
      && row.isActive && row.organizationIsActive
  {
    if payload.None? || payload.value.userId.None? || payload.value.email.None? then Err(CredentialsError)
    else
      match lookup(payload.value.userId.value)
      case LookupFailed => Err(CredentialsError)
      case NoRow => Err(CredentialsError)
      case Found(row) =>
        if !row.isActive then Err(InactiveUserError)
        else if !row.organizationIsActive then Err(InactiveOrganizationError)
        else Ok(CurrentUser(row.id, row.email, row.organizationId, row.role, row.firstName, row.lastName, row.isActive))
  }

  /** A token that does not verify, or whose claims lack the user id or the
      email, is refused with 401 whatever the database holds: the lookup is
      never consulted. */
  lemma BadTokenBeforeLookup(payload: Option<TokenPayload>, l1: int -> Lookup, l2: int -> Lookup)
    requires payload.None? || payload.value.userId.None? || payload.value.email.None?
    ensures GetCurrentUser(payload, l1) == GetCurrentUser(payload, l2) == Err(CredentialsError)
  {
  }

  /** For a token with both claims, the outcome of the lookup decides: a
      missing row or a failed query is a 401, an inactive user a 403 that
      wins over an inactive organisation, then an inactive organisation. */
  lemma LookupOutcomes(p: TokenPayload, lookup: int -> Lookup)
    requires p.userId.Some? && p.email.Some?
    ensures !lookup(p.userId.value).Found? ==> GetCurrentUser(Some(p), lookup) == Err(CredentialsError)
    ensures lookup(p.userId.value).Found? && !lookup(p.userId.value).row.isActive ==>
      GetCurrentUser(Some(p), lookup) == Err(InactiveUserError)
    ensures (lookup(p.userId.value).Found? && lookup(p.userId.value).row.isActive
      && !lookup(p.userId.value).row.organizationIsActive) ==>
      GetCurrentUser(Some(p), lookup) == Err(InactiveOrganizationError)
  {
  }

  /** `get_current_active_user`: refuses an inactive user. */
  function GetCurrentActiveUser(auth: Result<CurrentUser, HttpError>): (r: Result<CurrentUser, HttpError>)
    ensures r.Ok? <==> auth.Ok? && auth.value.isActive
  {
    match auth
    case Err(e) => Err(e)
    case Ok(u) => if !u.isActive then Err(InactiveUserError) else Ok(u)
  }

  /** The second check is redundant: every user `get_current_user` admits is
      active. */
  lemma ActiveCheckRedundant(payload: Option<TokenPayload>, lookup: int -> Lookup)
    ensures GetCurrentActiveUser(GetCurrentUser(payload, lookup)) == GetCurrentUser(payload, lookup)
  {
  }

  /** The dependency `require_permission(permission)`: after authentication,
      a 403 exactly when `check_permission` refuses. */
  function RequirePermission(auth: Result<CurrentUser, HttpError>, permission: string,
                             checkPermission: (int, string) -> bool): (r: Result<CurrentUser, HttpError>)
    ensures auth.Err? ==> r == auth
    ensures auth.Ok? ==> (r.Ok? <==> checkPermission(auth.value.id, permission))
    ensures auth.Ok? && r.Err? ==> r.error.status == 403
    ensures r.Ok? ==> r == auth
  {
    match auth
    case Err(e) => Err(e)
    case Ok(u) =>
      if !checkPermission(u.id, permission) then Err(HttpError(403, "Permission denied. Required permission: " + permission))
      else Ok(u)
  }

  /** The dependency `require_role(allowed_roles)`: after authentication, a
      403 exactly when the user's role is not listed. */
  function RequireRole(auth: Result<CurrentUser, HttpError>, allowedRoles: seq<string>): (r: Result<CurrentUser, HttpError>)
    ensures auth.Err? ==> r == auth
    ensures auth.Ok? ==> (r.Ok? <==> auth.value.role in allowedRoles)
    ensures auth.Ok? && r.Err? ==> r.error.status == 403
    ensures r.Ok? ==> r == auth
  {
    match auth
    case Err(e) => Err(e)
    case Ok(u) =>
      if u.role !in allowedRoles then Err(HttpError(403, "Access denied. Required roles: " + Join(allowedRoles, ", ")))
      else Ok(u)
  }

  /** Widening the allowed roles never turns an admitted user away. */
  lemma RequireRoleMonotone(auth: Result<CurrentUser, HttpError>, allowed: seq<string>, more: seq<string>)
    requires forall x | x in allowed :: x in more
    ensures RequireRole(auth, allowed).Ok? ==> RequireRole(auth, more).Ok?
  {
  }
}
