/** The profile screen: the avatar's initials and the role badge derived
    from the signed-in user, and the edit form, which Cancel resets to the
    user's stored values. Loading and saving go through the network and
    storage; their results enter as the user record they deliver. */
module Profile {
  import opened Common

  /** The user record the screen reads; a missing (`null`, `undefined`)
      string field is `None`. */
  datatype ProfileUser = ProfileUser(
    firstName: Option<string>, lastName: Option<string>, email: Option<string>,
    isSuperuser: bool, isStaff: bool)

  /** `formData`: `first_name`, `last_name`, `email`. */
  datatype ProfileForm = ProfileForm(firstName: string, lastName: string, email: string)

  const EmptyForm := ProfileForm("", "", "")

  /** `x || ''` on a string field: missing and empty both give ''. */
  function OrEmpty(x: Option<string>): (r: string)
    ensures x.Some? ==> r == x.value
    ensures x.None? ==> r == ""
  {
    x.GetOr("")
  }

  /** `getUserInitials`: '??' without a user; otherwise the upper-cased
      first letters of the first and last names; if both names are empty,
      the upper-cased first letter of the email; failing that, '?'. */
  function UserInitials(user: Option<ProfileUser>): (r: string)
    ensures user.None? ==> r == "??"
    ensures 1 <= |r| <= 2
  {
    if user.None? then "??"
    else
      var u := user.value;
      var initials := ToUpper(FirstChar(OrEmpty(u.firstName)) + FirstChar(OrEmpty(u.lastName)));
      if initials != "" then initials
      else
        var fromEmail := if u.email.Some? then ToUpper(FirstChar(u.email.value)) else "";
        if fromEmail != "" then fromEmail else "?"
  }

  /** What the initials are, case by case: the name initials when either
      name is non-empty (one letter per non-empty name, in order), else
      the email's first letter, else '?'. No letter is a lower-case ASCII
      letter. */
  lemma UserInitialsCases(u: ProfileUser)
    ensures var r := UserInitials(Some(u));
            var first := OrEmpty(u.firstName);
            var last := OrEmpty(u.lastName);
            var email := OrEmpty(u.email);
            && (first != "" ==> r[0] == AsciiUpper(first[0]))
            && (first != "" && last != "" ==> r == [AsciiUpper(first[0]), AsciiUpper(last[0])])
            && (first == "" && last != "" ==> r == [AsciiUpper(last[0])])
            && (first == "" && last == "" && email != "" ==> r == [AsciiUpper(email[0])])
            && (first == "" && last == "" && email == "" ==> r == "?")
            && (forall i :: 0 <= i < |r| ==> !('a' <= r[i] <= 'z'))
  {
    var first := OrEmpty(u.firstName);
    var last := OrEmpty(u.lastName);
    var joined := FirstChar(first) + FirstChar(last);
    assert |joined| == |FirstChar(first)| + |FirstChar(last)|;
    if first != "" {
      assert joined[0] == first[0];
    } else {
      assert joined == FirstChar(last);
    }
    if first != "" && last != "" {
      assert joined == [first[0], last[0]];
    }
  }

  /** The role badge. */
  datatype Role = Admin | Staff | User
  {
    function Label(): string
    {
      match this
      case Admin => "Admin"
      case Staff => "Staff"
      case User => "User"
    }
  }

  /** `getUserRole`: 'User' without a user; superuser before staff. */
  function UserRole(user: Option<ProfileUser>): (r: Role)
    ensures r == Admin <==> user.Some? && user.value.isSuperuser
    ensures r == Staff <==> user.Some? && !user.value.isSuperuser && user.value.isStaff
    ensures r == User <==> user.None? || (!user.value.isSuperuser && !user.value.isStaff)
  {
    if user.None? then User
    else if user.value.isSuperuser then Admin
    else if user.value.isStaff then Staff
    else User
  }

  /** The form as filled from a user, or all '' without one; the same
      expression fills it on load and on Cancel. */
  function FormFromUser(user: Option<ProfileUser>): ProfileForm
  {
    if user.None? then EmptyForm
    else ProfileForm(OrEmpty(user.value.firstName), OrEmpty(user.value.lastName), OrEmpty(user.value.email))
  }

  /** One edit of the form: only the names have inputs that change it, the
      email input is not editable. */
  datatype FormEdit = EditFirstName(text: string) | EditLastName(text: string)

  function ApplyFormEdit(f: ProfileForm, e: FormEdit): ProfileForm
  {
    match e
    case EditFirstName(t) => f.(firstName := t)
    case EditLastName(t) => f.(lastName := t)
  }

  function ApplyFormEdits(f: ProfileForm, edits: seq<FormEdit>): ProfileForm
    decreases |edits|
  {
    if edits == [] then f else ApplyFormEdits(ApplyFormEdit(f, edits[0]), edits[1..])
  }

  /** However the names are edited, the email stays as loaded. */
  lemma {:induction false} EditsKeepEmail(f: ProfileForm, edits: seq<FormEdit>)
    ensures ApplyFormEdits(f, edits).email == f.email
    decreases |edits|
  {
    if edits != [] {
      EditsKeepEmail(ApplyFormEdit(f, edits[0]), edits[1..]);
    }
  }

  /** The screen's state hooks that the edit flow uses. */
  class ProfileScreen {
    var user: Option<ProfileUser>
    var editing: bool
    var formData: ProfileForm

    constructor ()
      ensures user.None? && !editing && formData == EmptyForm
    {
      user := None;
      editing := false;
      formData := EmptyForm;
    }

    /** `setUser(userData)` followed by `setFormData(...)`, as
        `loadUserProfile` does with the stored and with the fetched user. */
    method ShowUser(u: ProfileUser)
      modifies this
      ensures user == Some(u) && formData == FormFromUser(Some(u)) && editing == old(editing)
    {
      user := Some(u);
      formData := ProfileForm(OrEmpty(u.firstName), OrEmpty(u.lastName), OrEmpty(u.email));
    }

    /** The pencil/close button in the header: flips edit mode and leaves
        the form as it is (only Cancel puts the user's values back). */
    method ToggleEditing()
      modifies this
      ensures editing == !old(editing) && user == old(user) && formData == old(formData)
    {
      editing := !editing;
    }

    method Edit(e: FormEdit)
      modifies this
      ensures formData == ApplyFormEdit(old(formData), e)
      ensures user == old(user) && editing == old(editing)
    {
      match e
      case EditFirstName(t) => formData := formData.(firstName := t);
      case EditLastName(t) => formData := formData.(lastName := t);
    }

    /** The Cancel button: leave edit mode and put back the user's values. */
    method CancelEdit()
      modifies this
      ensures !editing && formData == FormFromUser(user) && user == old(user)
    {
      editing := false;
      formData := FormFromUser(user);
    }

    /** A successful `handleSave`: the server's record becomes the user and
        edit mode ends; the form keeps what was typed. */
    method SaveSucceeded(response: ProfileUser)
      modifies this
      ensures user == Some(response) && !editing && formData == old(formData)
    {
      user := Some(response);
      editing := false;
    }
  }
}
