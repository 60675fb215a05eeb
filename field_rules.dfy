/**
 * The field schemas of src/middlewares/users.middleware.ts (passwordSchema,
 * confirmPasswordSchema, nameSchema, dateOfBirthSchema, imageSchema, the
 * email chains and the profile fields). Each chain runs all its validators in
 * order and the field's reported error is the first one that failed; `trim`
 * is applied at its place in the chain, so `notEmpty` sees the raw value.
 * An absent field is the empty string, as express-validator reads it.
 */
module FieldRules {
  import opened Wrappers
  import opened Models
  import opened Collaborators
  import opened JsString

  predicate IsLower(c: char) { 'a' <= c <= 'z' }
  predicate IsUpper(c: char) { 'A' <= c <= 'Z' }
  predicate IsDigit(c: char) { '0' <= c <= '9' }

  /** validator.js's symbol class for `isStrongPassword` (space included). */
  predicate IsSymbol(c: char) {
    c in "-#!$@\U{00A3}%^&*()_+|~=`{}[]:\";'<>?,./\\ "
  }

  /** `isStrongPassword` with minLength 6 and one lower-case letter, upper-case letter, digit and symbol at least. */
  predicate IsStrongPassword(s: string) {
    && |s| >= 6
    && (exists i :: 0 <= i < |s| && IsLower(s[i]))
    && (exists i :: 0 <= i < |s| && IsUpper(s[i]))
    && (exists i :: 0 <= i < |s| && IsDigit(s[i]))
    && (exists i :: 0 <= i < |s| && IsSymbol(s[i]))
  }

  /** `isLength({ min, max })`. */
  predicate InLength(s: string, min: nat, max: nat) {
    min <= |s| <= max
  }

  /**
   * The chain shared by passwordSchema and confirmPasswordSchema:
   * notEmpty, isString, trim, isLength 6..50, isStrongPassword.
   */
  function StrongPasswordChain(raw: string, required: string, badLength: string, weak: string): (r: Option<string>)
    ensures raw == "" ==> r == Some(required)
    ensures raw != "" && !InLength(Trim(raw), 6, 50) ==> r == Some(badLength)
    ensures raw != "" && InLength(Trim(raw), 6, 50) && !IsStrongPassword(Trim(raw)) ==> r == Some(weak)
    ensures raw != "" && InLength(Trim(raw), 6, 50) && IsStrongPassword(Trim(raw)) ==> r.None?
  {
    var value := Trim(raw);
    if raw == "" then Some(required)
    else if !InLength(value, 6, 50) then Some(badLength)
    else if !IsStrongPassword(value) then Some(weak)
    else None
  }

  /** passwordSchema: the first error of the `password` field. */
  function PasswordError(raw: string): Option<string> {
    StrongPasswordChain(raw, PASSWORD_IS_REQUIRED, PASSWORD_LENGTH_MUST_BE_FROM_6_TO_50, PASSWORD_MUST_BE_STRONG)
  }

  /**
   * confirmPasswordSchema: the same chain, then the custom check against the
   * body's `password`, which its own `trim` has already sanitized.
   */
  function ConfirmPasswordError(rawConfirm: string, rawPassword: string): (r: Option<string>)
    ensures StrongPasswordChain(rawConfirm, CONFIRM_PASSWORD_IS_REQUIRED, CONFIRM_PASSWORD_LENGTH_MUST_BE_FROM_6_TO_50,
                                CONFIRM_PASSWORD_MUST_BE_STRONG).Some? ==>
              r == StrongPasswordChain(rawConfirm, CONFIRM_PASSWORD_IS_REQUIRED, CONFIRM_PASSWORD_LENGTH_MUST_BE_FROM_6_TO_50,
                                       CONFIRM_PASSWORD_MUST_BE_STRONG)
    ensures StrongPasswordChain(rawConfirm, CONFIRM_PASSWORD_IS_REQUIRED, CONFIRM_PASSWORD_LENGTH_MUST_BE_FROM_6_TO_50,
                                CONFIRM_PASSWORD_MUST_BE_STRONG).None? ==>
              (r.None? <==> Trim(rawConfirm) == Trim(rawPassword))
    ensures StrongPasswordChain(rawConfirm, CONFIRM_PASSWORD_IS_REQUIRED, CONFIRM_PASSWORD_LENGTH_MUST_BE_FROM_6_TO_50,
                                CONFIRM_PASSWORD_MUST_BE_STRONG).None? && Trim(rawConfirm) != Trim(rawPassword) ==>
              r == Some(CONFIRM_PASSWORD_MUST_BE_THE_SAME_AS_PASSWORD)
  {
    match StrongPasswordChain(rawConfirm, CONFIRM_PASSWORD_IS_REQUIRED,
                              CONFIRM_PASSWORD_LENGTH_MUST_BE_FROM_6_TO_50, CONFIRM_PASSWORD_MUST_BE_STRONG)
    case Some(m) => Some(m)
    case None =>
      if Trim(rawConfirm) != Trim(rawPassword) then Some(CONFIRM_PASSWORD_MUST_BE_THE_SAME_AS_PASSWORD) else None
  }

  /** A password is accepted exactly when, once trimmed, it has 6 to 50 characters and every required class. */
  lemma PasswordAccepted(raw: string)
    ensures PasswordError(raw).None? <==> InLength(Trim(raw), 6, 50) && IsStrongPassword(Trim(raw))
  {
  }

  /**
   * Each password refusal has its own message: a missing password, a trimmed
   * length outside 6..50, or a password of the right length that lacks a
   * required character class. An all-whitespace password is always refused.
   */
  lemma PasswordRejectionMessages(raw: string)
    ensures raw == "" ==> PasswordError(raw) == Some(PASSWORD_IS_REQUIRED)
    ensures raw != "" && !InLength(Trim(raw), 6, 50) ==> PasswordError(raw) == Some(PASSWORD_LENGTH_MUST_BE_FROM_6_TO_50)
    ensures raw != "" && InLength(Trim(raw), 6, 50) && !IsStrongPassword(Trim(raw)) ==>
              PasswordError(raw) == Some(PASSWORD_MUST_BE_STRONG)
    ensures Trim(raw) == "" ==> PasswordError(raw).Some?
  {
  }

  /** A confirmation is accepted exactly when it passes the password rules and equals the trimmed password. */
  lemma ConfirmPasswordAccepted(rawConfirm: string, rawPassword: string)
    ensures ConfirmPasswordError(rawConfirm, rawPassword).None? <==>
              InLength(Trim(rawConfirm), 6, 50) && IsStrongPassword(Trim(rawConfirm)) && Trim(rawConfirm) == Trim(rawPassword)
    ensures ConfirmPasswordError(rawConfirm, rawPassword).None? ==> PasswordError(rawPassword).None?
  {
  }

  /**
   * Each confirmation refusal has its own message; a confirmation that meets
   * the password rules but differs from the trimmed password is reported as
   * not the same as the password.
   */
  lemma ConfirmPasswordRejectionMessages(rawConfirm: string, rawPassword: string)
    ensures rawConfirm == "" ==> ConfirmPasswordError(rawConfirm, rawPassword) == Some(CONFIRM_PASSWORD_IS_REQUIRED)
    ensures rawConfirm != "" && !InLength(Trim(rawConfirm), 6, 50) ==>
              ConfirmPasswordError(rawConfirm, rawPassword) == Some(CONFIRM_PASSWORD_LENGTH_MUST_BE_FROM_6_TO_50)
    ensures rawConfirm != "" && InLength(Trim(rawConfirm), 6, 50) && !IsStrongPassword(Trim(rawConfirm)) ==>
              ConfirmPasswordError(rawConfirm, rawPassword) == Some(CONFIRM_PASSWORD_MUST_BE_STRONG)
    ensures rawConfirm != "" && InLength(Trim(rawConfirm), 6, 50) && IsStrongPassword(Trim(rawConfirm))
              && Trim(rawConfirm) != Trim(rawPassword) ==>
              ConfirmPasswordError(rawConfirm, rawPassword) == Some(CONFIRM_PASSWORD_MUST_BE_THE_SAME_AS_PASSWORD)
  {
  }

  /** nameSchema: notEmpty, isString, trim, isLength 2..100. */
  function NameError(raw: string): (r: Option<string>)
    ensures r.None? <==> raw != "" && InLength(Trim(raw), 2, 100)
    ensures raw == "" ==> r == Some(NAME_IS_REQUIRED)
    ensures raw != "" && r.Some? ==> r == Some(NAME_LENGTH_MUST_BE_FROM_2_TO_100)
  {
    if raw == "" then Some(NAME_IS_REQUIRED)
    else if !InLength(Trim(raw), 2, 100) then Some(NAME_LENGTH_MUST_BE_FROM_2_TO_100)
    else None
  }

  /** dateOfBirthSchema: notEmpty, trim, isISO8601. */
  function DateOfBirthError(raw: string, env: Env): (r: Option<string>)
    ensures r.None? <==> raw != "" && env.isISO8601(Trim(raw))
    ensures raw == "" ==> r == Some(DATE_OF_BIRTH_IS_REQUIRED)
    ensures raw != "" && r.Some? ==> r == Some(DATE_OF_BIRTH_MUST_BE_ISO8601)
  {
    if raw == "" then Some(DATE_OF_BIRTH_IS_REQUIRED)
    else if !env.isISO8601(Trim(raw)) then Some(DATE_OF_BIRTH_MUST_BE_ISO8601)
    else None
  }

  /**
   * The standard part of the email chain of loginMiddleware,
   * registerMiddleware and forgotPasswordValidator: notEmpty, trim, isEmail.
   * Each middleware's custom lookup runs after it.
   */
  function EmailFormatError(raw: string, env: Env): (r: Option<string>)
    ensures r.None? <==> raw != "" && env.isEmail(Trim(raw))
    ensures raw == "" ==> r == Some(EMAIL_IS_REQUIRED)
    ensures raw != "" && r.Some? ==> r == Some(EMAIL_IS_INVALID)
  {
    if raw == "" then Some(EMAIL_IS_REQUIRED)
    else if !env.isEmail(Trim(raw)) then Some(EMAIL_IS_INVALID)
    else None
  }

  /**
   * An optional field (`optional: true`): skipped when absent; otherwise,
   * optionally trimmed, it must have `min` to `max` characters.
   */
  function OptionalLengthError(value: Option<string>, trim: bool, min: nat, max: nat, message: string): (r: Option<string>)
    ensures value.None? ==> r.None?
    ensures value.Some? ==> (r.None? <==> InLength(if trim then Trim(value.value) else value.value, min, max))
    ensures r.Some? ==> r.value == message
  {
    match value
    case None => None
    case Some(v) =>
      var s := if trim then Trim(v) else v;
      if InLength(s, min, max) then None else Some(message)
  }

  /** The body of an update-profile request: every field optional. */
  datatype UpdateMyProfileBody = UpdateMyProfileBody(
    name: Option<string>, date_of_birth: Option<string>, bio: Option<string>, location: Option<string>,
    website: Option<string>, username: Option<string>, avatar: Option<string>, cover_photo: Option<string>)

  /**
   * The entry of an optional length-checked field: it is named `field`, and
   * it fails, with `message`, exactly when the field is present and its
   * (trimmed, if `trim`) length is outside `min..max`.
   */
  predicate LengthRule(entry: (string, Option<string>), field: string, value: Option<string>,
                       trim: bool, min: nat, max: nat, message: string)
  {
    && entry.0 == field
    && (entry.1.None? <==> value.None? || InLength(if trim then Trim(value.value) else value.value, min, max))
    && (entry.1.Some? ==> entry.1.value == message)
  }

  /** One optional length-checked field with its first error. */
  function LengthEntry(field: string, value: Option<string>, trim: bool, min: nat, max: nat, message: string)
    : (entry: (string, Option<string>))
    ensures LengthRule(entry, field, value, trim, min, max, message)
  {
    (field, OptionalLengthError(value, trim, min, max, message))
  }

  /** updateMyProfileValidator: the first error of each field (or none), in schema order. */
  function UpdateMyProfileChecks(body: UpdateMyProfileBody, env: Env): (checks: seq<(string, Option<string>)>)
    ensures |checks| == 8
    ensures LengthRule(checks[0], "name", body.name, true, 2, 100, NAME_LENGTH_MUST_BE_FROM_2_TO_100)
    ensures checks[1].0 == "date_of_birth"
    ensures checks[1].1.None? <==> body.date_of_birth.None? || env.isISO8601(Trim(body.date_of_birth.value))
    ensures checks[1].1.Some? ==> checks[1].1.value == DATE_OF_BIRTH_MUST_BE_ISO8601
    ensures LengthRule(checks[2], "bio", body.bio, true, 1, 200, BIO_LENGTH)
    ensures LengthRule(checks[3], "location", body.location, true, 1, 200, LOCATION_LENGTH)
    ensures LengthRule(checks[4], "website", body.website, true, 1, 400, WEBSITE_LENGTH)
    ensures LengthRule(checks[5], "username", body.username, true, 1, 50, USERNAME_INVALID)
    ensures LengthRule(checks[6], "avatar", body.avatar, false, 1, 400, IMAGE_URL_MUST_BE_STRING)
    ensures LengthRule(checks[7], "cover_photo", body.cover_photo, false, 1, 400, IMAGE_URL_MUST_BE_STRING)
    ensures body == UpdateMyProfileBody(None, None, None, None, None, None, None, None) ==>
              forall k :: 0 <= k < |checks| ==> checks[k].1.None?
  {
    var name := LengthEntry("name", body.name, true, 2, 100, NAME_LENGTH_MUST_BE_FROM_2_TO_100);
    var dob := ("date_of_birth",
                match body.date_of_birth
                case None => None
                case Some(d) => if env.isISO8601(Trim(d)) then None else Some(DATE_OF_BIRTH_MUST_BE_ISO8601));
    var bio := LengthEntry("bio", body.bio, true, 1, 200, BIO_LENGTH);
    var location := LengthEntry("location", body.location, true, 1, 200, LOCATION_LENGTH);
    var website := LengthEntry("website", body.website, true, 1, 400, WEBSITE_LENGTH);
    var username := LengthEntry("username", body.username, true, 1, 50, USERNAME_INVALID);
    var avatar := LengthEntry("avatar", body.avatar, false, 1, 400, IMAGE_URL_MUST_BE_STRING);
    var cover_photo := LengthEntry("cover_photo", body.cover_photo, false, 1, 400, IMAGE_URL_MUST_BE_STRING);
    [name, dob, bio, location, website, username, avatar, cover_photo]
  }
}
