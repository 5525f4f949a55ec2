/** Registration-input validation and the outward view of a user
    (src/auth/serializers.py). */
module Serializers {
  import opened Common
  import opened Model

  // ---------------------------------------------------------------------
  // Character classes (ASCII only)
  // ---------------------------------------------------------------------

  predicate IsDigit(c: char) { '0' <= c <= '9' }

  predicate IsUpper(c: char) { 'A' <= c <= 'Z' }

  /** The punctuation accepted as a password symbol. */
  const SpecialChars: string := "!@#$%^&*(),.?\":{}|<>"

  predicate IsSpecial(c: char) { c in SpecialChars }

  /** `str.isdigit()`: true of a NON-EMPTY string of digits only. */
  predicate IsDigitString(s: string)
  {
    |s| > 0 && forall i :: 0 <= i < |s| ==> IsDigit(s[i])
  }

  /** `re.search` of a one-character class: some character of `s` is in it. */
  function FindChar(s: string, p: char -> bool): (r: Option<nat>)
    ensures r.Some? ==> r.value < |s| && p(s[r.value])
    ensures r.None? <==> forall i :: 0 <= i < |s| ==> !p(s[i])
  {
    if s == [] then None
    else if p(s[0]) then Some(0)
    else match FindChar(s[1..], p)
         case None => None
         case Some(k) => Some(k + 1)
  }

  // ---------------------------------------------------------------------
  // Field validators
  // ---------------------------------------------------------------------

  const UcinNotDigits: string := "UCIN must contain only digits"
  const UcinWrongLength: string := "UCIN must contain 13 digits"

  /** `validate_UCIN`: the digit test comes before the length test. */
  function ValidateUcin(value: string): (r: Result<string, string>)
    ensures r.Ok? <==> |value| == 13 && forall i :: 0 <= i < |value| ==> IsDigit(value[i])
    ensures r.Ok? ==> r.value == value
    ensures r.Err? ==> r.error == UcinNotDigits || r.error == UcinWrongLength
    ensures r == Err(UcinNotDigits) <==> !IsDigitString(value)
    ensures r == Err(UcinWrongLength) <==> IsDigitString(value) && |value| != 13
  {
    if !IsDigitString(value) then Err(UcinNotDigits)
    else if |value| != 13 then Err(UcinWrongLength)
    else Ok(value)
  }

  /** A UCIN with a non-digit reports the digit error whatever its length. */
  lemma NonDigitUcinReportsDigitError(value: string, k: nat)
    requires k < |value| && !IsDigit(value[k])
    ensures ValidateUcin(value) == Err(UcinNotDigits)
  {
  }

  const PasswordTooShort: string := "Password must be at least 8 characters long"
  const PasswordNoUpper: string := "Password must contain at least one uppercase letter"
  const PasswordNoDigit: string := "Password must contain at least one digit"
  const PasswordNoSpecial: string :=
    "Password must contain at least one special character (!@#$%^&*(),.?\":{}|<>)"

  predicate HasUpper(s: string) { exists i :: 0 <= i < |s| && IsUpper(s[i]) }
  predicate HasDigit(s: string) { exists i :: 0 <= i < |s| && IsDigit(s[i]) }
  predicate HasSpecial(s: string) { exists i :: 0 <= i < |s| && IsSpecial(s[i]) }

  /** A password the complexity rules accept.  There is no lower-case rule. */
  predicate StrongPassword(s: string)
  {
    |s| >= 8 && HasUpper(s) && HasDigit(s) && HasSpecial(s)
  }

  /** `validate_password`: the rules are tried in the order length,
      upper case, digit, symbol, and the first that fails is reported. */
  function ValidatePassword(value: string): (r: Result<string, string>)
    ensures r.Ok? <==> StrongPassword(value)
    ensures r.Ok? ==> r.value == value
    ensures r == Err(PasswordTooShort) <==> |value| < 8
    ensures r == Err(PasswordNoUpper) <==> |value| >= 8 && !HasUpper(value)
    ensures r == Err(PasswordNoDigit) <==> |value| >= 8 && HasUpper(value) && !HasDigit(value)
    ensures r == Err(PasswordNoSpecial) <==>
              |value| >= 8 && HasUpper(value) && HasDigit(value) && !HasSpecial(value)
  {
    if |value| < 8 then Err(PasswordTooShort)
    else if FindChar(value, IsUpper).None? then Err(PasswordNoUpper)
    else if FindChar(value, IsDigit).None? then Err(PasswordNoDigit)
    else if FindChar(value, IsSpecial).None? then Err(PasswordNoSpecial)
    else Ok(value)
  }

  /** Lower-case letters are not required: an all-capitals password passes. */
  lemma NoLowercaseRequired()
    ensures ValidatePassword("SECRET12!").Ok?
  {
    var p := "SECRET12!";
    assert IsUpper(p[0]) && IsDigit(p[6]) && IsSpecial(p[8]);
  }

  // ---------------------------------------------------------------------
  // UserCreateSerializer
  // ---------------------------------------------------------------------

  /** `GenderEnumSerializer`: the input genders, capitalised. */
  datatype SerializerGender = MaleChoice | FemaleChoice

  function SerializerGenderValue(g: SerializerGender): string
  {
    match g
    case MaleChoice => "Male"
    case FemaleChoice => "Female"
  }

  function ParseSerializerGender(s: string): (r: Option<SerializerGender>)
    ensures r.Some? <==> s == "Male" || s == "Female"
    ensures r.Some? ==> SerializerGenderValue(r.value) == s
  {
    if s == "Male" then Some(MaleChoice)
    else if s == "Female" then Some(FemaleChoice)
    else None
  }

  /** The request body of a signup, every field as the client sent it. */
  datatype RawUserCreate = RawUserCreate(
    username: string, email: string, password: string, firstName: string,
    lastName: string, ucin: string, dateOfBirth: string, gender: string)

  /** A validated signup body.  `password` is the plaintext the source keeps
      in a field named `password_hash`. */
  datatype UserCreate = UserCreate(
    username: string, email: string, password: string, firstName: string,
    lastName: string, ucin: string, dateOfBirth: string, gender: SerializerGender)

  /** One entry of a validation failure, as the framework reports it per field. */
  datatype FieldError =
    | TooShort(field: string, minLength: nat)
    | TooLong(field: string, maxLength: nat)
    | ValueFailed(field: string, message: string)
    | NotEnumMember(field: string)

  const UsernameMin: nat := 3
  const UsernameMax: nat := 15
  const EmailMax: nat := 50
  const PasswordMin: nat := 8

  function UsernameErrors(s: string): seq<FieldError>
  {
    if |s| < UsernameMin then [TooShort("username", UsernameMin)]
    else if |s| > UsernameMax then [TooLong("username", UsernameMax)]
    else []
  }

  function EmailErrors(s: string): seq<FieldError>
  {
    if |s| > EmailMax then [TooLong("email", EmailMax)] else []
  }

  /** The length constraint is checked by the framework first; the
      validator runs only on values that satisfy it. */
  function PasswordErrors(s: string): seq<FieldError>
  {
    if |s| < PasswordMin then [TooShort("password_hash", PasswordMin)]
    else match ValidatePassword(s)
         case Ok(_) => []
         case Err(m) => [ValueFailed("password_hash", m)]
  }

  function UcinErrors(s: string): seq<FieldError>
  {
    match ValidateUcin(s)
    case Ok(_) => []
    case Err(m) => [ValueFailed("UCIN", m)]
  }

  function GenderErrors(s: string): seq<FieldError>
  {
    if ParseSerializerGender(s).Some? then [] else [NotEnumMember("gender")]
  }

  /** Every field's errors, in field declaration order. */
  function CreateErrors(raw: RawUserCreate): seq<FieldError>
  {
    UsernameErrors(raw.username) + EmailErrors(raw.email) + PasswordErrors(raw.password)
      + UcinErrors(raw.ucin) + GenderErrors(raw.gender)
  }

  predicate AcceptableCreate(raw: RawUserCreate)
  {
    && UsernameMin <= |raw.username| <= UsernameMax
    && |raw.email| <= EmailMax
    && StrongPassword(raw.password)
    && |raw.ucin| == 13 && (forall i :: 0 <= i < |raw.ucin| ==> IsDigit(raw.ucin[i]))
    && (raw.gender == "Male" || raw.gender == "Female")
  }

  /** Validating a signup body: it is accepted exactly when every bound and
      validator passes, and then each field is passed on unchanged. */
  function ValidateCreate(raw: RawUserCreate): (r: Result<UserCreate, seq<FieldError>>)
    ensures r.Ok? <==> AcceptableCreate(raw)
    ensures r.Err? ==> r.error != [] && r.error == CreateErrors(raw)
    ensures r.Ok? ==>
      && r.value.username == raw.username && r.value.email == raw.email
      && r.value.password == raw.password && r.value.firstName == raw.firstName
      && r.value.lastName == raw.lastName && r.value.ucin == raw.ucin
      && r.value.dateOfBirth == raw.dateOfBirth
      && SerializerGenderValue(r.value.gender) == raw.gender
  {
    var errors := CreateErrors(raw);
    if errors != [] then Err(errors)
    else
      var g := ParseSerializerGender(raw.gender);
      assert g.Some?;
      Ok(UserCreate(raw.username, raw.email, raw.password, raw.firstName,
                    raw.lastName, raw.ucin, raw.dateOfBirth, g.value))
  }

  /** Because the framework's length check runs first, the validator's own
      "at least 8 characters" message never reaches the client. */
  lemma ShortPasswordMessageUnreachable(raw: RawUserCreate)
    ensures ValueFailed("password_hash", PasswordTooShort) !in CreateErrors(raw)
  {
  }

  // ---------------------------------------------------------------------
  // UserSerializer
  // ---------------------------------------------------------------------

  /** The fields `UserSerializer` declares. */
  datatype UserView = UserView(
    uid: Uid, id: int, username: string, passwordHash: string, email: string,
    firstName: string, lastName: string, ucin: int, dateOfBirth: string,
    gender: string, isVerified: bool, role: string, createdAt: int, updateAt: int)

  const ViewKeys: set<string> := {
    "uid", "id", "username", "email", "first_name", "last_name", "UCIN",
    "date_of_birth", "gender", "is_verified", "role", "created_at", "update_at" }

  /** Serialising a `UserSerializer`: every declared field except the
      excluded `password_hash`. */
  function DumpUserView(v: UserView): (d: Claims)
    ensures "password_hash" !in d
    ensures d.Keys == ViewKeys
    ensures d["email"] == JStr(v.email) && d["username"] == JStr(v.username)
  {
    map[
      "uid" := JInt(v.uid), "id" := JInt(v.id), "username" := JStr(v.username),
      "email" := JStr(v.email), "first_name" := JStr(v.firstName),
      "last_name" := JStr(v.lastName), "UCIN" := JInt(v.ucin),
      "date_of_birth" := JStr(v.dateOfBirth), "gender" := JStr(v.gender),
      "is_verified" := JBool(v.isVerified), "role" := JStr(v.role),
      "created_at" := JInt(v.createdAt), "update_at" := JInt(v.updateAt)]
  }
}
