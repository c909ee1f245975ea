/** The single-page sign-up form: the inputs normalise what is typed
    (names trimmed, the email lower-cased and trimmed), and the form is
    checked in a fixed order, the first failing check being reported and
    stopping the registration. */
module RegisterForm {
  import opened Common

  /** `formData`: `first_name`, `last_name`, `email`, `password`, `password2`. */
  datatype FormData = FormData(firstName: string, lastName: string, email: string, password: string, password2: string)

  const InitialFormData := FormData("", "", "", "", "")

  /** The checks of `validateForm`, in the order they run. */
  datatype FormError =
    | MissingFirstName | MissingLastName | MissingEmail | InvalidEmail
    | MissingPassword | PasswordTooShort | PasswordsDiffer
  {
    /** The alert each check shows. */
    function Message(): string
    {
      match this
      case MissingFirstName => "Please enter your first name"
      case MissingLastName => "Please enter your last name"
      case MissingEmail => "Please enter your email"
      case InvalidEmail => "Please enter a valid email address"
      case MissingPassword => "Please enter a password"
      case PasswordTooShort => "Password must be at least 8 characters long"
      case PasswordsDiffer => "Passwords do not match"
    }

    /** Position in the order of checks. */
    function Rank(): nat
    {
      match this
      case MissingFirstName => 0
      case MissingLastName => 1
      case MissingEmail => 2
      case InvalidEmail => 3
      case MissingPassword => 4
      case PasswordTooShort => 5
      case PasswordsDiffer => 6
    }
  }

  /** The condition each check requires. */
  predicate Passes(f: FormData, check: FormError)
  {
    match check
    case MissingFirstName => Trim(f.firstName) != ""
    case MissingLastName => Trim(f.lastName) != ""
    case MissingEmail => Trim(f.email) != ""
    case InvalidEmail => '@' in f.email && '.' in f.email
    case MissingPassword => f.password != ""
    case PasswordTooShort => |f.password| >= 8
    case PasswordsDiffer => f.password == f.password2
  }

  /** `validateForm`: None for `true`, otherwise the check whose alert is
      shown. The reported check is the first in order that fails. */
  function ValidateForm(f: FormData): (r: Option<FormError>)
    ensures r.None? ==> forall check: FormError :: Passes(f, check)
    ensures r.Some? ==> !Passes(f, r.value)
  {
    if Trim(f.firstName) == "" then Some(MissingFirstName)
    else if Trim(f.lastName) == "" then Some(MissingLastName)
    else if Trim(f.email) == "" then Some(MissingEmail)
    else if '@' !in f.email || '.' !in f.email then Some(InvalidEmail)
    else if f.password == "" then Some(MissingPassword)
    else if |f.password| < 8 then Some(PasswordTooShort)
    else if f.password != f.password2 then Some(PasswordsDiffer)
    else None
  }

  /** The reported check is the first in order that fails: every check
      ranked before it passes. */
  lemma ValidateFormReportsFirstFailure(f: FormData)
    ensures var r := ValidateForm(f);
            var rank := if r.Some? then r.value.Rank() else 7;
            && (rank > 0 ==> Passes(f, MissingFirstName))
            && (rank > 1 ==> Passes(f, MissingLastName))
            && (rank > 2 ==> Passes(f, MissingEmail))
            && (rank > 3 ==> Passes(f, InvalidEmail))
            && (rank > 4 ==> Passes(f, MissingPassword))
            && (rank > 5 ==> Passes(f, PasswordTooShort))
            && (rank > 6 ==> Passes(f, PasswordsDiffer))
  {
  }

  /** The form passes exactly when the names and the email are not blank,
      the email has an '@' and a '.', and the password has at least eight
      characters and is typed the same twice. */
  lemma ValidateFormIff(f: FormData)
    ensures ValidateForm(f).None? <==>
              && Trim(f.firstName) != "" && Trim(f.lastName) != "" && Trim(f.email) != ""
              && '@' in f.email && '.' in f.email
              && |f.password| >= 8 && f.password == f.password2
  {
    if ValidateForm(f).None? {
      assert Passes(f, MissingFirstName) && Passes(f, MissingLastName) && Passes(f, MissingEmail);
      assert Passes(f, InvalidEmail) && Passes(f, PasswordTooShort) && Passes(f, PasswordsDiffer);
    }
  }

  /** The inputs' `onChangeText` handlers. */
  function EditFirstName(f: FormData, text: string): FormData
  {
    f.(firstName := Trim(text))
  }

  function EditLastName(f: FormData, text: string): FormData
  {
    f.(lastName := Trim(text))
  }

  function EditEmail(f: FormData, text: string): FormData
  {
    f.(email := Trim(ToLower(text)))
  }

  function EditPassword(f: FormData, text: string): FormData
  {
    f.(password := text)
  }

  function EditPassword2(f: FormData, text: string): FormData
  {
    f.(password2 := text)
  }

  /** A stored value with no whitespace at either end. */
  predicate Trimmed(s: string)
  {
    s == [] || (!IsJsWhitespace(s[0]) && !IsJsWhitespace(s[|s| - 1]))
  }

  /** What the inputs ever store: trimmed names, and a trimmed email with
      no ASCII capital. */
  predicate Normalised(f: FormData)
  {
    Trimmed(f.firstName) && Trimmed(f.lastName) && Trimmed(f.email)
    && forall k :: 0 <= k < |f.email| ==> !('A' <= f.email[k] <= 'Z')
  }

  /** One typing event in one of the inputs. */
  datatype Edit = FirstName(text: string) | LastName(text: string) | Email(text: string)
                | Password(text: string) | Password2(text: string)

  function ApplyEdit(f: FormData, e: Edit): FormData
  {
    match e
    case FirstName(t) => EditFirstName(f, t)
    case LastName(t) => EditLastName(f, t)
    case Email(t) => EditEmail(f, t)
    case Password(t) => EditPassword(f, t)
    case Password2(t) => EditPassword2(f, t)
  }

  function ApplyEdits(f: FormData, edits: seq<Edit>): FormData
    decreases |edits|
  {
    if edits == [] then f else ApplyEdits(ApplyEdit(f, edits[0]), edits[1..])
  }


  lemma ApplyEditKeepsNormalised(f: FormData, e: Edit)
    requires Normalised(f)
    ensures Normalised(ApplyEdit(f, e))
  {
    match e
    case FirstName(t) =>
      assert Trimmed(Trim(t));
    case LastName(t) =>
      assert Trimmed(Trim(t));
    case Email(t) =>
      assert Trimmed(Trim(ToLower(t)));
      TrimKeepsNoCapitals(ToLower(t));
    case Password(t) =>
    case Password2(t) =>
  }

  /** Whatever is typed, the form only ever holds normalised values. */
  lemma {:induction false} EditsKeepNormalised(f: FormData, edits: seq<Edit>)
    requires Normalised(f)
    ensures Normalised(ApplyEdits(f, edits))
    decreases |edits|
  {
    if edits != [] {
      ApplyEditKeepsNormalised(f, edits[0]);
      EditsKeepNormalised(ApplyEdit(f, edits[0]), edits[1..]);
    }
  }

  lemma BlankChecksOnNormalised(f: FormData)
    requires Normalised(f)
    ensures Trim(f.firstName) != "" <==> f.firstName != ""
    ensures Trim(f.lastName) != "" <==> f.lastName != ""
    ensures Trim(f.email) != "" <==> f.email != ""
  {
    TrimmedIsBlankOnlyWhenEmpty(f.firstName);
    TrimmedIsBlankOnlyWhenEmpty(f.lastName);
    TrimmedIsBlankOnlyWhenEmpty(f.email);
  }

  lemma TrimmedIsBlankOnlyWhenEmpty(s: string)
    requires Trimmed(s)
    ensures Trim(s) != "" <==> s != ""
  {
    TrimmedIsFixed(s);
  }

  /** On the values the inputs store, the blank checks are emptiness
      checks: a field typed as spaces only is stored empty. */
  lemma BlankChecksOnStoredValues(edits: seq<Edit>)
    ensures var f := ApplyEdits(InitialFormData, edits);
            && (Trim(f.firstName) != "" <==> f.firstName != "")
            && (Trim(f.lastName) != "" <==> f.lastName != "")
            && (Trim(f.email) != "" <==> f.email != "")
  {
    EditsKeepNormalised(InitialFormData, edits);
    BlankChecksOnNormalised(ApplyEdits(InitialFormData, edits));
  }

  /** `handleRegister`: the whole form is sent, and only when it passes. */
  function RegisterRequest(f: FormData): (r: Option<FormData>)
    ensures r.Some? <==> ValidateForm(f).None?
    ensures r.Some? ==> r.value == f
  {
    if ValidateForm(f).None? then Some(f) else None
  }
}
