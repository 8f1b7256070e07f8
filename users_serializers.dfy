/**
 * The user serializers: password-change validation, role validation, and the
 * registration `create` with its permission check.
 */
module UserSerializers {
  import opened Basics
  import opened Text
  import opened TaskModels

  const PASSWORD_MIN_LENGTH: nat := 8

  const CURRENT_PASSWORD: string := "current_password"
  const NEW_PASSWORD: string := "new_password"
  const CONFIRM_PASSWORD: string := "confirm_password"
  const PASSWORD: string := "password"

  /** A field-level error, naming the field. */
  datatype FieldError = Required(field: string) | Blank(field: string) | TooShort(field: string)

  datatype ValidationError =
    | FieldErrors(errors: seq<FieldError>)
    | PasswordsDiffer
    | InvalidRole
    | NoPermission
    | EmailNotSet

  datatype Result<T> = Success(value: T) | Failure(error: ValidationError)

  /** The outcome of one `CharField`. */
  datatype Checked = Valid(value: string) | Invalid(error: FieldError)

  /**
   * A required `CharField` with a minimum length: a missing key is required, the value
   * is stripped of surrounding white space, an empty value is blank, and a value shorter
   * than the minimum is too short.
   */
  function CheckCharField(name: string, raw: Option<string>, minLength: nat): (c: Checked)
    ensures c.Valid? <==> raw.Some? && Trim(raw.value) != [] && |Trim(raw.value)| >= minLength
    ensures c.Valid? ==> c.value == Trim(raw.value)
    ensures c.Invalid? ==> c.error.field == name
    ensures c.Invalid? && c.error.Required? <==> raw.None?
  {
    match raw
    case None => Invalid(Required(name))
    case Some(s) =>
      var t := Trim(s);
      if t == [] then Invalid(Blank(name))
      else if |t| < minLength then Invalid(TooShort(name))
      else Valid(t)
  }

  /** The errors of a list of checked fields, in field order. */
  function Errors(cs: seq<Checked>): (es: seq<FieldError>)
    ensures |es| <= |cs|
    ensures es == [] <==> forall i :: 0 <= i < |cs| ==> cs[i].Valid?
    ensures forall e :: e in es <==> exists i :: 0 <= i < |cs| && cs[i] == Invalid(e)
  {
    if cs == [] then []
    else
      var rest := Errors(cs[1..]);
      assert forall i :: 1 <= i < |cs| ==> cs[i] == cs[1..][i - 1];
      assert forall i :: 0 <= i < |cs| - 1 ==> cs[1..][i] == cs[i + 1];
      if cs[0].Invalid? then [cs[0].error] + rest else rest
  }

  // ----- ChangePasswordSerializer -----

  /** The request data of a password change; `None` is a missing key. */
  datatype PasswordChangeData = PasswordChangeData(
    current: Option<string>, newPassword: Option<string>, confirm: Option<string>)

  datatype PasswordChange = PasswordChange(current: string, newPassword: string, confirm: string)

  function ChangeFields(d: PasswordChangeData): seq<Checked> {
    [CheckCharField(CURRENT_PASSWORD, d.current, 0),
     CheckCharField(NEW_PASSWORD, d.newPassword, PASSWORD_MIN_LENGTH),
     CheckCharField(CONFIRM_PASSWORD, d.confirm, PASSWORD_MIN_LENGTH)]
  }

  /** Every field present and non-blank, and both new passwords at least eight characters. */
  predicate FieldsValid(d: PasswordChangeData) {
    && d.current.Some? && Trim(d.current.value) != []
    && d.newPassword.Some? && |Trim(d.newPassword.value)| >= PASSWORD_MIN_LENGTH
    && d.confirm.Some? && |Trim(d.confirm.value)| >= PASSWORD_MIN_LENGTH
  }

  /**
   * Field validation first, reporting every failing field; only then `validate`, which
   * refuses differing new and confirmed passwords and otherwise returns the data unchanged.
   */
  function ValidateChange(d: PasswordChangeData): (r: Result<PasswordChange>)
    ensures r.Success? <==> FieldsValid(d) && Trim(d.newPassword.value) == Trim(d.confirm.value)
    ensures r.Success? ==>
      r.value == PasswordChange(Trim(d.current.value), Trim(d.newPassword.value), Trim(d.confirm.value))
    ensures r.Failure? && r.error.FieldErrors? <==> !FieldsValid(d)
    ensures r.Failure? && r.error.FieldErrors? ==> r.error.errors != []
    ensures r == Failure(PasswordsDiffer) <==> FieldsValid(d) && Trim(d.newPassword.value) != Trim(d.confirm.value)
  {
    var cs := ChangeFields(d);
    ChangeFieldsMeaning(d);
    var es := Errors(cs);
    if es != [] then Failure(FieldErrors(es))
    else if cs[1].value != cs[2].value then Failure(PasswordsDiffer)
    else Success(PasswordChange(cs[0].value, cs[1].value, cs[2].value))
  }

  /** The three field checks all pass exactly when the fields are valid, yielding the stripped values. */
  lemma ChangeFieldsMeaning(d: PasswordChangeData)
    ensures Errors(ChangeFields(d)) == [] <==> FieldsValid(d)
    ensures FieldsValid(d) ==>
      ChangeFields(d) == [Valid(Trim(d.current.value)), Valid(Trim(d.newPassword.value)), Valid(Trim(d.confirm.value))]
  {
    var cs := ChangeFields(d);
    NoErrorsOfThree(cs[0], cs[1], cs[2]);
  }

  lemma NoErrorsOfThree(a: Checked, b: Checked, c: Checked)
    ensures Errors([a, b, c]) == [] <==> a.Valid? && b.Valid? && c.Valid?
  {
    var cs := [a, b, c];
    assert cs[0] == a && cs[1] == b && cs[2] == c;
  }

  /** A missing field is reported as required whatever the other fields hold. */
  lemma MissingNewPasswordRequired(d: PasswordChangeData)
    requires d.newPassword.None?
    ensures ValidateChange(d).Failure? && Required(NEW_PASSWORD) in ValidateChange(d).error.errors
  {
    var cs := ChangeFields(d);
    assert cs[1] == Invalid(Required(NEW_PASSWORD));
  }

  // ----- UserRegistrationSerializer -----

  /** `validate_role`: the value is accepted unchanged iff it is one of the role choices. */
  function ValidateRole(value: string): (r: Result<string>)
    ensures r.Success? <==> value in ROLE_CHOICES
    ensures r.Success? ==> r.value == value
    ensures r.Failure? ==> r.error == InvalidRole
  {
    if value in ROLE_CHOICES then Success(value) else Failure(InvalidRole)
  }

  /** The registration data after validation. */
  datatype Registration = Registration(
    username: string, email: string, password: string, firstName: string, lastName: string,
    phone: Option<string>, role: string, isWorkshop: bool)

  /** The registration data as sent; only the password and role checks are modelled. */
  datatype RegistrationData = RegistrationData(
    username: string, email: string, password: Option<string>, firstName: string, lastName: string,
    phone: Option<string>, role: string, isWorkshop: bool)

  /**
   * The password field (write-only, at least eight characters) and the role check; the
   * request is refused when either fails. Which messages come back is not modelled: the
   * field errors of both are collected together, and a role outside the choices is
   * refused by the choice field before `validate_role` runs.
   */
  function ValidateRegistration(d: RegistrationData): (r: Result<Registration>)
    ensures r.Success? <==>
      d.password.Some? && |Trim(d.password.value)| >= PASSWORD_MIN_LENGTH && d.role in ROLE_CHOICES
    ensures r.Success? ==>
      && r.value.password == Trim(d.password.value) && r.value.role == d.role
      && r.value.username == d.username && r.value.email == d.email
  {
    match CheckCharField(PASSWORD, d.password, PASSWORD_MIN_LENGTH)
    case Invalid(e) => Failure(FieldErrors([e]))
    case Valid(p) =>
      match ValidateRole(d.role)
      case Failure(e) => Failure(e)
      case Success(role) =>
        Success(Registration(d.username, d.email, p, d.firstName, d.lastName, d.phone, role, d.isWorkshop))
  }

  /** The keyword arguments `create_user` receives: the data without the password. */
  datatype UserFields = UserFields(
    username: string, email: string, firstName: string, lastName: string,
    phone: Option<string>, role: string, isWorkshop: bool)

  /** `validated_data.pop('password')`: the remaining fields and the password. */
  function PopPassword(d: Registration): (p: (UserFields, string))
    ensures Restore(p.0, p.1) == d
  {
    (UserFields(d.username, d.email, d.firstName, d.lastName, d.phone, d.role, d.isWorkshop), d.password)
  }

  /** Putting the password back into the fields. */
  function Restore(f: UserFields, password: string): Registration {
    Registration(f.username, f.email, password, f.firstName, f.lastName, f.phone, f.role, f.isWorkshop)
  }

  /** Popping the password and putting it back are inverse both ways. */
  lemma PopRestore(f: UserFields, password: string)
    ensures PopPassword(Restore(f, password)) == (f, password)
  {
  }

  /** The new user row and the password that `set_password` then hashes into it. */
  datatype Created = Created(user: User, password: string)

  /**
   * `create`: refused when there is a requester without add-user permission; otherwise
   * the user is built from the data without its password (`create_user` refusing an
   * empty email), is active and neither staff nor superuser, is dated `today` (the
   * column's `timezone.now` default), and gets the password.
   */
  function Create(requester: Option<User>, id: nat, d: Registration, today: int): (r: Result<Created>)
    ensures r.Failure? <==> (requester.Some? && !requester.value.HasAddUserPermission()) || d.email == []
    ensures requester.Some? && !requester.value.HasAddUserPermission() ==> r == Failure(NoPermission)
    ensures r.Success? ==>
      && r.value.user.id == id && r.value.password == d.password
      && r.value.user.username == d.username && r.value.user.role == d.role
      && r.value.user.firstName == d.firstName && r.value.user.lastName == d.lastName
      && r.value.user.isActive && !r.value.user.isStaff && !r.value.user.isSuperuser
      && r.value.user.createdAt == today
  {
    if requester.Some? && !requester.value.HasAddUserPermission() then Failure(NoPermission)
    else
      var (fields, password) := PopPassword(d);
      if fields.email == [] then Failure(EmailNotSet)
      else Success(Created(User(id, fields.username, fields.firstName, fields.lastName, fields.role,
                                false, false, true, today), password))
  }

  /** Only a manager or a superuser can create users. */
  lemma CreateNeedsManager(requester: User, id: nat, d: Registration, today: int)
    requires Create(Some(requester), id, d, today).Success?
    ensures requester.role == MANAGER || requester.isSuperuser
  {
  }

  /** A user that registration created holds a valid role. */
  lemma CreatedRoleValid(requester: Option<User>, id: nat, data: RegistrationData, today: int)
    requires ValidateRegistration(data).Success?
    requires Create(requester, id, ValidateRegistration(data).value, today).Success?
    ensures Create(requester, id, ValidateRegistration(data).value, today).value.user.role in ROLE_CHOICES
  {
  }

  // ----- UserSerializer -----

  /** The read-only `full_name` splits back into the first and last name at the first name's length. */
  lemma FullNameSplits(u: User)
    ensures var n := u.FullName();
      && n[..|u.firstName|] == u.firstName && n[|u.firstName|] == ' '
      && n[|u.firstName| + 1..] == u.lastName
  {
    var n := u.FullName();
    assert n == u.firstName + [' '] + u.lastName;
  }
}
