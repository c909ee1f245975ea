/** The three-step sign-up wizard: names on step 1, the email on step 2,
    password, confirmation and the terms on step 3. Every edit is validated
    on the spot; a step can be left forwards only when it is valid, and the
    account is requested only when step 3 is.

    The form, the per-field errors and the per-field "validated" flags are
    objects keyed by field name, modelled as maps; a missing error reads as
    no error, as `!fieldErrors.x` does for an absent key. Haptics,
    animation and the request itself are not modelled. */
module RegisterWizard {
  import opened Common
  import opened Validation

  const FirstNameTooShort := "First name must be at least 2 characters"
  const LastNameTooShort := "Last name must be at least 2 characters"
  const InvalidEmail := "Please enter a valid email address"
  const PasswordTooShort := "Password must be at least 8 characters"
  const PasswordTooWeak := "Password must contain at least one uppercase, lowercase, and number"
  const PasswordsDiffer := "Passwords do not match"

  /** `validateField(field, value)`; `password` is the form's current
      password, which the confirmation is compared with. The empty string
      means valid. */
  function FieldError(field: string, value: string, password: string): (r: string)
    ensures field == "firstName" ==> (r == "" <==> |value| >= 2)
    ensures field == "lastName" ==> (r == "" <==> |value| >= 2)
    ensures field == "email" ==> (r == "" <==> MatchesEmailPattern(value))
    ensures field == "password" && |value| < 8 ==> r == PasswordTooShort
    ensures field == "password" && |value| >= 8 ==> (r == "" <==> MatchesPasswordPattern(value))
    ensures field == "confirmPassword" ==> (r == "" <==> value == password)
    ensures field !in {"firstName", "lastName", "email", "password", "confirmPassword"} ==> r == ""
  {
    EmailRegexTestIffPattern(value);
    PasswordRegexTestIffPattern(value);
    if field == "firstName" then (if |value| < 2 then FirstNameTooShort else "")
    else if field == "lastName" then (if |value| < 2 then LastNameTooShort else "")
    else if field == "email" then (if !EmailRegexTest(value) then InvalidEmail else "")
    else if field == "password" then
      (if |value| < 8 then PasswordTooShort
       else if !PasswordRegexTest(value) then PasswordTooWeak
       else "")
    else if field == "confirmPassword" then (if value != password then PasswordsDiffer else "")
    else ""
  }

  /** A long enough one-line password is accepted exactly when it has a
      lowercase letter, an uppercase letter and a digit. */
  lemma PasswordRule(value: string, password: string)
    requires |value| >= 8 && SingleLine(value)
    ensures FieldError("password", value, password) == "" <==>
            HasClass(value, Lower) && HasClass(value, Upper) && HasClass(value, Digit)
  {
    SingleLinePasswordPattern(value);
    PasswordRegexTestIffPattern(value);
  }

  /** A field's value, or the empty string when the key is absent. */
  function Get(m: map<string, string>, key: string): string
  {
    if key in m then m[key] else ""
  }

  /** The wizard's state: `formData`, `fieldErrors`, `fieldValidated`,
      `acceptTerms` and `currentStep`. */
  datatype Form = Form(data: map<string, string>, errors: map<string, string>,
                       validated: map<string, bool>, acceptTerms: bool, step: int)

  const InitialForm := Form(
    map["firstName" := "", "lastName" := "", "email" := "", "password" := "", "confirmPassword" := "", "role" := "user"],
    map[], map[], false, 1)

  /** `handleFieldChange(field, value)` as written: store the value, then
      record its error and whether it passed. The confirmation's error is
      left as it was when the password changes. */
  function FieldChangedAsWritten(f: Form, field: string, value: string): (r: Form)
    ensures r.data == f.data[field := value]
    ensures r.errors == f.errors[field := FieldError(field, value, Get(f.data, "password"))]
    ensures r.validated == f.validated[field := r.errors[field] == ""]
    ensures r.acceptTerms == f.acceptTerms && r.step == f.step
  {
    var error := FieldError(field, value, Get(f.data, "password"));
    f.(data := f.data[field := value],
       errors := f.errors[field := error],
       validated := f.validated[field := error == ""])
  }

  /** `handleFieldChange` with the confirmation re-checked against a new
      password once it has been typed; every other field is handled as
      written. */
  function FieldChanged(f: Form, field: string, value: string): (r: Form)
    ensures r.data == f.data[field := value]
    ensures field != "password" || Get(f.data, "confirmPassword") == "" ==> r == FieldChangedAsWritten(f, field, value)
    ensures field == "password" && Get(f.data, "confirmPassword") != "" ==>
              && r.errors == FieldChangedAsWritten(f, field, value).errors["confirmPassword" := FieldError("confirmPassword", Get(f.data, "confirmPassword"), value)]
              && r.validated == FieldChangedAsWritten(f, field, value).validated["confirmPassword" := Get(f.data, "confirmPassword") == value]
    ensures r.acceptTerms == f.acceptTerms && r.step == f.step
  {
    var g := FieldChangedAsWritten(f, field, value);
    var confirm := Get(f.data, "confirmPassword");
    if field == "password" && confirm != "" then
      var error := FieldError("confirmPassword", confirm, value);
      g.(errors := g.errors["confirmPassword" := error], validated := g.validated["confirmPassword" := error == ""])
    else g
  }

  /** `isStepValid(step)`. */
  predicate StepValid(f: Form, step: int)
  {
    if step == 1 then
      Get(f.data, "firstName") != "" && Get(f.data, "lastName") != ""
      && Get(f.errors, "firstName") == "" && Get(f.errors, "lastName") == ""
    else if step == 2 then
      Get(f.data, "email") != "" && Get(f.errors, "email") == ""
    else if step == 3 then
      Get(f.data, "password") != "" && Get(f.data, "confirmPassword") != ""
      && Get(f.errors, "password") == "" && Get(f.errors, "confirmPassword") == "" && f.acceptTerms
    else false
  }

  /** `handleNextStep`: forwards by one, at most to step 3, only from a valid step. */
  function NextStep(f: Form): (r: Form)
    ensures r.data == f.data && r.errors == f.errors && r.validated == f.validated && r.acceptTerms == f.acceptTerms
    ensures !StepValid(f, f.step) ==> r.step == f.step
    ensures StepValid(f, f.step) ==> r.step == if f.step < 3 then f.step + 1 else 3
  {
    if StepValid(f, f.step) then f.(step := if f.step + 1 < 3 then f.step + 1 else 3) else f
  }

  /** `handlePrevStep`: back by one, never below step 1. */
  function PrevStep(f: Form): Form
  {
    f.(step := if f.step - 1 > 1 then f.step - 1 else 1)
  }

  /** The terms checkbox. */
  function ToggleTerms(f: Form): Form
  {
    f.(acceptTerms := !f.acceptTerms)
  }

  /** What the user can do on the wizard. */
  datatype Action = Edit(field: string, value: string) | Terms | Next | Prev

  function Apply(f: Form, a: Action): Form
  {
    match a
    case Edit(field, value) => FieldChanged(f, field, value)
    case Terms => ToggleTerms(f)
    case Next => NextStep(f)
    case Prev => PrevStep(f)
  }

  function Run(f: Form, actions: seq<Action>): Form
    decreases |actions|
  {
    if actions == [] then f else Run(Apply(f, actions[0]), actions[1..])
  }

  /** A typed confirmation with no error matches the password. */
  predicate ConfirmAgrees(f: Form)
  {
    (Get(f.errors, "confirmPassword") == "" && Get(f.data, "confirmPassword") != "")
      ==> Get(f.data, "confirmPassword") == Get(f.data, "password")
  }

  /** Every validated flag says whether its field's recorded error is empty. */
  predicate FlagsMatchErrors(f: Form)
  {
    f.validated.Keys == f.errors.Keys && forall k :: k in f.validated ==> f.validated[k] == (f.errors[k] == "")
  }

  predicate Inv(f: Form)
  {
    1 <= f.step <= 3 && ConfirmAgrees(f) && FlagsMatchErrors(f)
  }

  /** After an edit every flag still follows its field's error. */
  lemma FieldChangedKeepsFlags(f: Form, field: string, value: string)
    requires FlagsMatchErrors(f)
    ensures FlagsMatchErrors(FieldChanged(f, field, value))
  {
    var g := FieldChangedAsWritten(f, field, value);
    assert FlagsMatchErrors(g);
  }

  /** After an edit a confirmation recorded as error-free still equals the
      password: it was checked against the password when typed, and is
      re-checked when the password changes. */
  lemma FieldChangedKeepsConfirm(f: Form, field: string, value: string)
    requires ConfirmAgrees(f)
    ensures ConfirmAgrees(FieldChanged(f, field, value))
  {
    var g := FieldChanged(f, field, value);
    var confirm := Get(f.data, "confirmPassword");
    if field == "password" && confirm != "" {
      assert Get(g.errors, "confirmPassword") == FieldError("confirmPassword", confirm, value);
    } else if field == "confirmPassword" {
      assert Get(g.errors, "confirmPassword") == FieldError("confirmPassword", value, Get(f.data, "password"));
    } else {
      assert Get(g.data, "confirmPassword") == confirm;
      assert field != "password" ==> Get(g.data, "password") == Get(f.data, "password");
      assert Get(g.errors, "confirmPassword") == Get(f.errors, "confirmPassword");
    }
  }

  lemma ApplyKeepsInv(f: Form, a: Action)
    requires Inv(f)
    ensures Inv(Apply(f, a))
  {
    match a
    case Edit(field, value) =>
      FieldChangedKeepsFlags(f, field, value);
      FieldChangedKeepsConfirm(f, field, value);
    case Terms =>
    case Next =>
    case Prev =>
  }

  lemma {:induction false} RunKeepsInv(f: Form, actions: seq<Action>)
    requires Inv(f)
    ensures Inv(Run(f, actions))
    decreases |actions|
  {
    if actions != [] {
      ApplyKeepsInv(f, actions[0]);
      RunKeepsInv(Apply(f, actions[0]), actions[1..]);
    }
  }

  /** Whatever the user does, the wizard stays on steps 1 to 3, and when
      step 3 is valid the confirmation equals the password. */
  lemma ReachableForms(actions: seq<Action>)
    ensures var f := Run(InitialForm, actions);
            && 1 <= f.step <= 3
            && (StepValid(f, 3) ==> Get(f.data, "confirmPassword") == Get(f.data, "password"))
  {
    RunKeepsInv(InitialForm, actions);
  }

  /** The regular expression accepts "Secret12" and "Secret34": an upper
      case 'S' first, a lower case 'e' next, and a digit at index 6, with
      no line break before it. */
  lemma SamplePasswordAccepted(value: string, password: string)
    requires value == "Secret12" || value == "Secret34"
    ensures FieldError("password", value, password) == ""
  {
    assert ClassAhead(value, 0, Upper);
    assert ClassAhead(value, 1, Lower) && ClassAhead(value, 0, Lower);
    assert ClassAhead(value, 6, Digit) && ClassAhead(value, 5, Digit) && ClassAhead(value, 4, Digit);
    assert ClassAhead(value, 3, Digit) && ClassAhead(value, 2, Digit) && ClassAhead(value, 1, Digit);
    assert ClassAhead(value, 0, Digit);
    assert PasswordRegexTest(value);
  }

  /** As written, the confirmation is not re-checked when the password
      changes afterwards: a password, the same confirmation, then a new
      password, and step 3 is valid with the two different. */
  lemma StaleConfirmationAsWritten()
    ensures var f1 := FieldChangedAsWritten(InitialForm, "password", "Secret12");
            var f2 := FieldChangedAsWritten(f1, "confirmPassword", "Secret12");
            var f3 := ToggleTerms(FieldChangedAsWritten(f2, "password", "Secret34"));
            StepValid(f3, 3) && Get(f3.data, "confirmPassword") != Get(f3.data, "password")
  {
    var a := "Secret12";
    SamplePasswordAccepted(a, "");
    SamplePasswordAccepted("Secret34", a);
    var b := "Secret34";
    var f1 := FieldChangedAsWritten(InitialForm, "password", a);
    assert Get(f1.data, "password") == a && Get(f1.errors, "password") == "";
    var f2 := FieldChangedAsWritten(f1, "confirmPassword", a);
    assert Get(f2.data, "confirmPassword") == a && Get(f2.errors, "confirmPassword") == "";
    var f3 := ToggleTerms(FieldChangedAsWritten(f2, "password", b));
    assert Get(f3.data, "password") == b && Get(f3.errors, "password") == "";
  }

  /** The account request `handleRegister` sends. */
  datatype RegisterRequest = RegisterRequest(email: string, password: string, firstName: string, lastName: string, role: string)

  /** `formData.email.toLowerCase().trim()`. */
  function NormaliseEmail(email: string): string
  {
    Trim(ToLower(email))
  }

  /** `handleRegister`: no request unless step 3 is valid; the request
      carries the lower-cased, trimmed email and the trimmed names. */
  function RegisterPayload(f: Form): (r: Option<RegisterRequest>)
    ensures r.Some? <==> StepValid(f, 3)
    ensures r.Some? ==> r.value == RegisterRequest(NormaliseEmail(Get(f.data, "email")), Get(f.data, "password"),
                                                   Trim(Get(f.data, "firstName")), Trim(Get(f.data, "lastName")),
                                                   Get(f.data, "role"))
  {
    if !StepValid(f, 3) then None
    else Some(RegisterRequest(NormaliseEmail(Get(f.data, "email")), Get(f.data, "password"),
                              Trim(Get(f.data, "firstName")), Trim(Get(f.data, "lastName")), Get(f.data, "role")))
  }

  /** A sent email has no ASCII capital and no surrounding whitespace, so
      normalising it again changes nothing. */
  lemma NormaliseEmailIdempotent(email: string)
    ensures NormaliseEmail(NormaliseEmail(email)) == NormaliseEmail(email)
  {
    var lower := ToLower(email);
    var t := Trim(lower);
    TrimKeepsNoCapitals(lower);
    ToLowerFixed(t);
    TrimIdempotent(lower);
  }

  /** The wizard as a screen component. */
  class RegisterScreen {
    var form: Form

    constructor ()
      ensures form == InitialForm
    {
      form := InitialForm;
    }

    method HandleFieldChange(field: string, value: string)
      modifies this
      ensures form == FieldChanged(old(form), field, value)
    {
      form := FieldChanged(form, field, value);
    }

    method ToggleAcceptTerms()
      modifies this
      ensures form == ToggleTerms(old(form))
    {
      form := form.(acceptTerms := !form.acceptTerms);
    }

    method HandleNextStep()
      modifies this
      ensures form == NextStep(old(form))
    {
      if StepValid(form, form.step) {
        form := form.(step := if form.step + 1 < 3 then form.step + 1 else 3);
      }
    }

    method HandlePrevStep()
      modifies this
      ensures form == PrevStep(old(form))
    {
      form := form.(step := if form.step - 1 > 1 then form.step - 1 else 1);
    }

    /** The request to send, if any; the form is left as it is. */
    method HandleRegister() returns (request: Option<RegisterRequest>)
      ensures request == RegisterPayload(form)
    {
      request := RegisterPayload(form);
    }
  }
}
