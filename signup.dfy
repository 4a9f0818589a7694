/** The signup form (src/components/Signup.jsx): the five fields, the ordered validation
    rules, and the submit, which hands the account data to the shell after a delay. The
    validation is defined but the submit does not consult it. Lengths are counted in Unicode
    scalar values. */
module SignupForm {
  import opened Wrappers
  import AppShell
  import Audit

  datatype Field = Username | Email | Role | Password | ConfirmPassword

  datatype FormData = FormData(username: string, email: string, role: string, password: string, confirmPassword: string)

  const EmptyForm := FormData("", "", "", "", "")

  const FillMessage := "Please fill in all fields"
  const MismatchMessage := "Passwords do not match"
  const LengthMessage := "Password must be at least 6 characters long"
  const EmailMessage := "Please enter a valid email address"

  function Get(f: FormData, field: Field): string {
    match field
    case Username => f.username
    case Email => f.email
    case Role => f.role
    case Password => f.password
    case ConfirmPassword => f.confirmPassword
  }

  /** The form after an edit: the named field takes the value, every other field keeps
      its own. */
  function WithField(f: FormData, field: Field, value: string): (r: FormData)
    ensures Get(r, field) == value
    ensures forall other :: other != field ==> Get(r, other) == Get(f, other)
  {
    match field
    case Username => f.(username := value)
    case Email => f.(email := value)
    case Role => f.(role := value)
    case Password => f.(password := value)
    case ConfirmPassword => f.(confirmPassword := value)
  }

  /** The four fields the fill check looks at; the confirmation is not one of them. */
  predicate Filled(f: FormData) {
    f.username != "" && f.email != "" && f.role != "" && f.password != ""
  }

  /** `validateForm`: the checks run in order (fill, match, length, '@') and the first one
      that fails gives its message; `None` (null) when all pass. */
  function ValidateForm(f: FormData): (r: Option<string>)
    ensures r.None? <==> Filled(f) && f.password == f.confirmPassword && |f.password| >= 6 && '@' in f.email
    ensures r == Some(FillMessage) <==> !Filled(f)
    ensures r == Some(MismatchMessage) <==> Filled(f) && f.password != f.confirmPassword
    ensures r == Some(LengthMessage) <==> Filled(f) && f.password == f.confirmPassword && |f.password| < 6
    ensures r == Some(EmailMessage) <==>
      Filled(f) && f.password == f.confirmPassword && |f.password| >= 6 && '@' !in f.email
  {
    if f.username == "" || f.email == "" || f.role == "" || f.password == "" then Some(FillMessage)
    else if f.password != f.confirmPassword then Some(MismatchMessage)
    else if |f.password| < 6 then Some(LengthMessage)
    else if '@' !in f.email then Some(EmailMessage)
    else None
  }

  /** The length rule's boundary: with everything else in order, a five-character password
      is refused and a six-character one accepted. */
  lemma PasswordLengthBoundary()
    ensures ValidateForm(FormData("sarah", "sarah@unit.gov", "Investigator", "abcde", "abcde")) == Some(LengthMessage)
    ensures ValidateForm(FormData("sarah", "sarah@unit.gov", "Investigator", "abcdef", "abcdef")) == None
  {
    assert "sarah@unit.gov"[5] == '@';
  }

  /** An empty confirmation is a mismatch, not a missing field. */
  lemma EmptyConfirmationIsAMismatch(f: FormData)
    requires Filled(f) && f.confirmPassword == ""
    ensures ValidateForm(f) == Some(MismatchMessage)
  {
  }

  /** The form's state. `pending` holds the account data of submits whose delay has not run
      out yet. */
  class Signup {
    var formData: FormData
    var isLoading: bool
    var error: string
    var pending: seq<AppShell.SignupData>

    constructor ()
      ensures formData == EmptyForm && !isLoading && error == "" && pending == []
    {
      formData := EmptyForm;
      isLoading := false;
      error := "";
      pending := [];
    }

    /** `handleInputChange` */
    method HandleInputChange(field: Field, value: string)
      modifies this`formData
      ensures formData == WithField(old(formData), field, value)
    {
      formData := WithField(formData, field, value);
    }

    /** `handleSubmit`: shows the spinner, clears the error and starts the delay. Nothing is
        validated: the username, email and role go to the shell whatever they are. */
    method HandleSubmit()
      modifies this`isLoading, this`error, this`pending
      ensures isLoading && error == ""
      ensures pending == old(pending) + [AppShell.SignupData(formData.username, formData.email, formData.role)]
    {
      isLoading := true;
      error := "";
      pending := pending + [AppShell.SignupData(formData.username, formData.email, formData.role)];
    }

    /** The delay runs out: the shell's `handleSignup` gets the data captured at submit time,
        and the spinner stops. */
    method CompleteSubmit(app: AppShell.App, timestamp: string)
      requires app.Valid() && pending != []
      modifies this`isLoading, this`pending, app`currentUser, app`currentView, app`isAuthenticated, app`auditLogs
      ensures app.Valid() && app.isAuthenticated && !isLoading
      ensures pending == old(pending[1..])
      ensures var data := old(pending[0]);
        && app.currentUser == AppShell.User(data.username, if data.role == "Admin" then "AD_001" else "IO_001", data.role)
        && app.currentView == (if data.role == "Admin" then "admin-cases" else "upload")
        && app.auditLogs == Audit.Logged(old(app.auditLogs), "Account Created", old(app.currentUser.name), timestamp,
                                         "New " + data.role + " account created for " + data.username)
    {
      var data := pending[0];
      app.HandleSignup(data, timestamp);
      isLoading := false;
      pending := pending[1..];
    }
  }
}
