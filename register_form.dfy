/** The sign-up form, `src/components/modules/Authentication/RegisterForm.tsx`:
    the checks its schema makes on the entered values, the request built
    from a valid form and where a successful sign-up leads. */
module RegisterForm {
  import opened Common
  import opened Auth

  /** The form's values as entered; the role is whatever the radio group
      holds. */
  datatype RegisterFormValues = RegisterFormValues(
    firstName: string, lastName: string, email: string,
    password: string, confirmPassword: string, role: string)

  /** `defaultValues`: everything empty, the role SENDER. */
  const DEFAULT_VALUES: RegisterFormValues := RegisterFormValues("", "", "", "", "", ROLE_SENDER)

  /** The field a validation message is shown under. */
  datatype FieldName = FirstName | LastName | Email | Password | ConfirmPassword | RoleField

  datatype Issue = Issue(path: FieldName, message: string)

  const FIRST_NAME_SHORT := "First name must be at least 2 characters"
  const LAST_NAME_SHORT := "Last name must be at least 2 characters"
  const EMAIL_INVALID := "Please enter a valid email address"
  const PASSWORD_SHORT := "Password must be at least 8 characters long."
  const PASSWORD_NO_UPPER := "Password must contain at least 1 uppercase letter."
  const PASSWORD_NO_SPECIAL := "Password must contain at least 1 special character."
  const ROLE_INVALID := "Please select an account type"
  const PASSWORDS_DIFFER := "Passwords don't match"

  /** The characters the second password check accepts as special. */
  const SPECIAL_CHARS: string := "!@#$%^&*(),.?\":{}|<>-_=+"

  /** `/[A-Z]/`: some character is an ASCII capital. */
  predicate HasUpper(s: string) {
    exists i :: 0 <= i < |s| && 'A' <= s[i] <= 'Z'
  }

  /** The special-character class: some character is one of `SPECIAL_CHARS`. */
  predicate HasSpecial(s: string) {
    exists i :: 0 <= i < |s| && s[i] in SPECIAL_CHARS
  }

  /** The two account types a visitor may choose. */
  predicate SelfServiceRole(r: string) {
    r == ROLE_SENDER || r == ROLE_RECEIVER
  }

  /** The password's own checks, in the order the schema runs them; each
      failing check adds its message. */
  function PasswordIssues(p: string): (r: seq<Issue>)
    ensures forall x :: x in r ==> x.path == Password
    ensures Issue(Password, PASSWORD_SHORT) in r <==> |p| < 8
    ensures Issue(Password, PASSWORD_NO_UPPER) in r <==> !HasUpper(p)
    ensures Issue(Password, PASSWORD_NO_SPECIAL) in r <==> !HasSpecial(p)
    ensures r == [] <==> |p| >= 8 && HasUpper(p) && HasSpecial(p)
  {
    (if |p| < 8 then [Issue(Password, PASSWORD_SHORT)] else [])
    + (if HasUpper(p) then [] else [Issue(Password, PASSWORD_NO_UPPER)])
    + (if HasSpecial(p) then [] else [Issue(Password, PASSWORD_NO_SPECIAL)])
  }

  /** What a form must satisfy to be sent, stated field by field; whether
      the email is well formed is the parameter `emailValid`. */
  predicate Acceptable(v: RegisterFormValues, emailValid: bool) {
    && |v.firstName| >= 2 && |v.lastName| >= 2
    && emailValid
    && |v.password| >= 8 && HasUpper(v.password) && HasSpecial(v.password)
    && SelfServiceRole(v.role)
    && v.password == v.confirmPassword
  }

  /** One check's message, present exactly when the check fails. */
  function Unless(ok: bool, x: Issue): (r: seq<Issue>)
    ensures |r| <= 1
    ensures forall y :: y in r <==> !ok && y == x
  {
    if ok then [] else [x]
  }

  /** The field checks of `registerSchema`, in field order. */
  function FieldIssues(v: RegisterFormValues, emailValid: bool): (issues: seq<Issue>)
    ensures forall x :: x in issues <==>
      || (x == Issue(FirstName, FIRST_NAME_SHORT) && |v.firstName| < 2)
      || (x == Issue(LastName, LAST_NAME_SHORT) && |v.lastName| < 2)
      || (x == Issue(Email, EMAIL_INVALID) && !emailValid)
      || x in PasswordIssues(v.password)
      || (x == Issue(RoleField, ROLE_INVALID) && !SelfServiceRole(v.role))
  {
    Unless(|v.firstName| >= 2, Issue(FirstName, FIRST_NAME_SHORT))
    + Unless(|v.lastName| >= 2, Issue(LastName, LAST_NAME_SHORT))
    + Unless(emailValid, Issue(Email, EMAIL_INVALID))
    + PasswordIssues(v.password)
    + Unless(SelfServiceRole(v.role), Issue(RoleField, ROLE_INVALID))
  }

  /** `registerSchema` applied to the values: the field checks, then the
      password comparison. An unknown role makes the field checks fail
      outright, and then the comparison is not made. The form passes
      exactly when it is acceptable. */
  function Validate(v: RegisterFormValues, emailValid: bool): (issues: seq<Issue>)
    ensures issues == [] <==> Acceptable(v, emailValid)
  {
    var fields := FieldIssues(v, emailValid);
    var issues := if !SelfServiceRole(v.role) then fields
      else fields + Unless(v.password == v.confirmPassword, Issue(ConfirmPassword, PASSWORDS_DIFFER));
    assert issues == [] <==> Acceptable(v, emailValid) by {
      if issues != [] {
        assert issues[0] in issues;
      }
    }
    issues
  }

  /** A message of the whole schema comes from the field checks or is the
      mismatch message of a form with a valid role. */
  lemma ValidateMember(v: RegisterFormValues, emailValid: bool, x: Issue)
    ensures x in Validate(v, emailValid) <==>
      || x in FieldIssues(v, emailValid)
      || (x == Issue(ConfirmPassword, PASSWORDS_DIFFER) && SelfServiceRole(v.role) && v.password != v.confirmPassword)
  {
  }

  /** Each name check and the email check show their message under their
      own field exactly when they fail. */
  lemma NameAndEmailMessages(v: RegisterFormValues, emailValid: bool)
    ensures Issue(FirstName, FIRST_NAME_SHORT) in Validate(v, emailValid) <==> |v.firstName| < 2
    ensures Issue(LastName, LAST_NAME_SHORT) in Validate(v, emailValid) <==> |v.lastName| < 2
    ensures Issue(Email, EMAIL_INVALID) in Validate(v, emailValid) <==> !emailValid
  {
    FieldMessage(v, emailValid, Issue(FirstName, FIRST_NAME_SHORT), |v.firstName| < 2);
    FieldMessage(v, emailValid, Issue(LastName, LAST_NAME_SHORT), |v.lastName| < 2);
    FieldMessage(v, emailValid, Issue(Email, EMAIL_INVALID), !emailValid);
  }

  /** A message outside the password and the confirmation appears exactly
      when its field check lists it. */
  lemma FieldMessage(v: RegisterFormValues, emailValid: bool, x: Issue, fails: bool)
    requires x.path != Password && x.path != ConfirmPassword
    requires x in FieldIssues(v, emailValid) <==> fails
    ensures x in Validate(v, emailValid) <==> fails
  {
    ValidateMember(v, emailValid, x);
  }

  /** The role message appears exactly for a role other than SENDER or
      RECEIVER; the mismatch message appears under the confirmation field
      exactly when the two passwords differ and the role is valid. */
  lemma RoleAndConfirmMessages(v: RegisterFormValues, emailValid: bool)
    ensures Issue(RoleField, ROLE_INVALID) in Validate(v, emailValid) <==> !SelfServiceRole(v.role)
    ensures Issue(ConfirmPassword, PASSWORDS_DIFFER) in Validate(v, emailValid) <==>
      v.password != v.confirmPassword && SelfServiceRole(v.role)
  {
    ValidateMember(v, emailValid, Issue(RoleField, ROLE_INVALID));
    ValidateMember(v, emailValid, Issue(ConfirmPassword, PASSWORDS_DIFFER));
  }

  /** The messages under the password field are those of its own checks. */
  lemma PasswordMessages(v: RegisterFormValues, emailValid: bool)
    ensures forall x :: x in Validate(v, emailValid) && x.path == Password <==> x in PasswordIssues(v.password)
  {
  }

  /** Nobody can sign up as an admin or a super admin. */
  lemma AdminCannotRegister(v: RegisterFormValues, emailValid: bool)
    requires v.role in {ROLE_ADMIN, ROLE_SUPER_ADMIN}
    ensures Issue(RoleField, ROLE_INVALID) in Validate(v, emailValid)
  {
  }

  /** The untouched form is refused for its names and password but never
      for its role. */
  lemma DefaultValuesRefused(emailValid: bool)
    ensures var issues := Validate(DEFAULT_VALUES, emailValid);
      && Issue(FirstName, FIRST_NAME_SHORT) in issues
      && Issue(LastName, LAST_NAME_SHORT) in issues
      && Issue(Password, PASSWORD_SHORT) in issues
      && Issue(RoleField, ROLE_INVALID) !in issues
  {
    var v := DEFAULT_VALUES;
    assert SelfServiceRole(v.role) && |v.password| < 8;
    ValidateMember(v, emailValid, Issue(FirstName, FIRST_NAME_SHORT));
    ValidateMember(v, emailValid, Issue(LastName, LAST_NAME_SHORT));
    ValidateMember(v, emailValid, Issue(Password, PASSWORD_SHORT));
    ValidateMember(v, emailValid, Issue(RoleField, ROLE_INVALID));
  }

  /** `userInfo`: what is sent to the sign-up endpoint. There is no field
      for the confirmation. */
  datatype RegisterRequest = RegisterRequest(email: string, password: string, name: string, role: string)

  /** `userInfo`: the full name is the first and last name joined by one
      space. */
  function UserInfo(v: RegisterFormValues): (r: RegisterRequest)
    ensures r.email == v.email && r.password == v.password && r.role == v.role
    ensures |r.name| == |v.firstName| + 1 + |v.lastName|
    ensures r.name[..|v.firstName|] == v.firstName && r.name[|v.firstName|] == ' '
    ensures r.name[|v.firstName| + 1..] == v.lastName
  {
    RegisterRequest(v.email, v.password, v.firstName + " " + v.lastName, v.role)
  }

  /** The part of a name before its first space and the part after it. */
  function SplitAtFirstSpace(name: string): (r: (string, string))
    ensures ' ' !in r.0
    ensures ' ' in name ==> name == r.0 + " " + r.1
    ensures ' ' !in name ==> r == (name, "")
  {
    if name == [] then ("", "")
    else if name[0] == ' ' then ("", name[1..])
    else
      var rest := SplitAtFirstSpace(name[1..]);
      assert name == [name[0]] + name[1..];
      ([name[0]] + rest.0, rest.1)
  }

  /** Joining two parts with a space and splitting at the first space
      gives the parts back when the first has no space. */
  lemma {:induction false} SplitJoined(f: string, l: string)
    requires ' ' !in f
    ensures SplitAtFirstSpace(f + " " + l) == (f, l)
  {
    var name := f + " " + l;
    if f == [] {
      assert name == " " + l;
    } else {
      SplitJoined(f[1..], l);
      assert name[0] == f[0] && name[1..] == f[1..] + " " + l;
      assert [f[0]] + f[1..] == f;
    }
  }

  /** A first name without a space can be read back from the sent name,
      and so can the last name. */
  lemma UserInfoNameSplits(v: RegisterFormValues)
    requires ' ' !in v.firstName
    ensures SplitAtFirstSpace(UserInfo(v).name) == (v.firstName, v.lastName)
  {
    SplitJoined(v.firstName, v.lastName);
  }

  /** `handleSubmit(onSubmit)`: a valid form is sent as `userInfo`, an
      invalid one is not sent at all. */
  function Submit(v: RegisterFormValues, emailValid: bool): (r: Option<RegisterRequest>)
    ensures r.Some? <==> Validate(v, emailValid) == []
    ensures r.Some? ==> r.value == UserInfo(v)
    ensures r.Some? ==> r.value.role in {ROLE_SENDER, ROLE_RECEIVER}
    ensures r.Some? ==> r.value.password == v.confirmPassword && |r.value.password| >= 8
  {
    if Validate(v, emailValid) == [] then Some(UserInfo(v)) else None
  }

  /** After the call, which is unwrapped: only a response with data goes
      to "/verify" carrying the email; an error payload is turned into a
      failure by the unwrapping, and a failure stays on the form. */
  function AfterRegister(response: CallResult, email: string): (r: Option<(string, string)>)
    ensures r.Some? <==> response == WithData
    ensures r.Some? ==> r.value == ("/verify", email)
  {
    if response == WithData then Some(("/verify", email)) else None
  }
}
