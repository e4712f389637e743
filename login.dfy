/**
  The login page (src/components/Login.jsx): a form with three modes — log in, ask for a
  reset link, set a new password — driven by `handleSubmit`, the "Forgot Password?" and
  "Back to Login" buttons and the inputs. The page is a class with the component's state
  fields; the pure function Step says what each event does and carries the properties.
 */
module Login {
  const EmailRequired := "Please enter your email"
  const FieldsRequired := "Please fill in all fields"
  const PasswordsDiffer := "Passwords do not match"
  const PasswordRequired := "Please enter your password"
  const ResetLinkSent := "A password reset link has been sent to your email!"
  const PasswordUpdated := "Your password has been updated successfully!"
  const HomePath := "/trello"

  /** The component's state. */
  datatype Form = Form(
    email: string,
    password: string,
    newPassword: string,
    confirmPassword: string,
    error: string,
    forgotPassword: bool,
    resetStep: bool)

  const InitialForm := Form("", "", "", "", "", false, false)

  /** What the page does besides updating its state: nothing, an alert, or a navigation. */
  datatype Effect = Stay | Alert(text: string) | Navigate(path: string)

  /** What the user can do on the page. */
  datatype Event =
    | Submit
    | ForgotPasswordClick
    | BackToLoginClick
    | EditEmail(email: string)
    | EditPassword(password: string)
    | EditNewPassword(newPassword: string)
    | EditConfirmPassword(confirmPassword: string)

  datatype Outcome = Outcome(form: Form, effect: Effect)

  /** The three modes the heading, the submit button and the shown inputs follow. */
  datatype Mode = SignIn | SendResetLink | UpdatePassword

  function ModeOf(forgotPassword: bool, resetStep: bool): Mode
  {
    if !forgotPassword then SignIn else if resetStep then UpdatePassword else SendResetLink
  }

  function FormMode(f: Form): Mode
  {
    ModeOf(f.forgotPassword, f.resetStep)
  }

  /** The heading and the submit button's text. */
  datatype Texts = Texts(heading: string, button: string)

  /** What the heading and the submit button show: one pair of texts per mode. */
  function PageTexts(forgotPassword: bool, resetStep: bool): (t: Texts)
    ensures ModeOf(forgotPassword, resetStep) == SignIn <==> t == Texts("Login to Trello", "Login")
    ensures ModeOf(forgotPassword, resetStep) == SendResetLink <==> t == Texts("Reset Password", "Send Reset Link")
    ensures ModeOf(forgotPassword, resetStep) == UpdatePassword <==> t == Texts("Update Password", "Update Password")
  {
    Texts(if forgotPassword then (if resetStep then "Update Password" else "Reset Password") else "Login to Trello",
          if forgotPassword then (if resetStep then "Update Password" else "Send Reset Link") else "Login")
  }

  /** `resetStep` is only ever set while in forgot-password mode. */
  predicate Consistent(f: Form)
  {
    f.resetStep ==> f.forgotPassword
  }

  /** The state invariant of every reachable page: also, the update step is only reached with an
      email typed, and its input is disabled there. */
  predicate Reachable(f: Form)
  {
    Consistent(f) && (f.resetStep ==> f.email != "")
  }

  /** An input or button is rendered and enabled in the current mode. */
  predicate Enabled(f: Form, e: Event)
  {
    match e
    case Submit => true
    case ForgotPasswordClick => !f.forgotPassword
    case BackToLoginClick => f.forgotPassword
    case EditEmail(_) => !f.resetStep
    case EditPassword(_) => !f.forgotPassword
    case EditNewPassword(_) => f.forgotPassword && f.resetStep
    case EditConfirmPassword(_) => f.forgotPassword && f.resetStep
  }

  /** `handleSubmit`. */
  function HandleSubmit(f: Form): (r: Outcome)
    // an empty email is reported and changes nothing else, in every mode
    ensures f.email == "" ==> r == Outcome(f.(error := EmailRequired), Stay)
    // asking for the link only moves on to the update step
    ensures f.email != "" && FormMode(f) == SendResetLink ==>
      r == Outcome(f.(resetStep := true), Alert(ResetLinkSent))
    // in the update step, missing or unequal passwords are reported and the mode is kept
    ensures f.email != "" && FormMode(f) == UpdatePassword && (f.newPassword == "" || f.confirmPassword == "") ==>
      r == Outcome(f.(error := FieldsRequired), Stay)
    ensures (f.email != "" && FormMode(f) == UpdatePassword && f.newPassword != "" && f.confirmPassword != ""
             && f.newPassword != f.confirmPassword) ==> r == Outcome(f.(error := PasswordsDiffer), Stay)
    // a successful update returns to log-in, clears the email and both new passwords, keeps `error`
    ensures f.email != "" && FormMode(f) == UpdatePassword && f.newPassword != "" && f.newPassword == f.confirmPassword ==>
      && FormMode(r.form) == SignIn && !r.form.forgotPassword && !r.form.resetStep
      && r.form.email == "" && r.form.newPassword == "" && r.form.confirmPassword == ""
      && r.form.error == f.error && r.form.password == f.password && r.effect == Alert(PasswordUpdated)
    // logging in needs a password; a log-in clears the error and goes to the boards page
    ensures f.email != "" && FormMode(f) == SignIn && f.password == "" ==>
      r == Outcome(f.(error := PasswordRequired), Stay)
    ensures r.effect.Navigate? <==> f.email != "" && FormMode(f) == SignIn && f.password != ""
    ensures r.effect.Navigate? ==> r == Outcome(f.(error := ""), Navigate(HomePath))
    // submitting never touches the password and never leaves the invariants
    ensures r.form.password == f.password
    ensures Consistent(f) ==> Consistent(r.form)
    ensures Reachable(f) ==> Reachable(r.form)
  {
    if f.email == "" then
      Outcome(f.(error := EmailRequired), Stay)
    else if f.forgotPassword && !f.resetStep then
      Outcome(f.(resetStep := true), Alert(ResetLinkSent))
    else if f.forgotPassword && f.resetStep then
      if f.newPassword == "" || f.confirmPassword == "" then
        Outcome(f.(error := FieldsRequired), Stay)
      else if f.newPassword != f.confirmPassword then
        Outcome(f.(error := PasswordsDiffer), Stay)
      else
        Outcome(f.(forgotPassword := false, resetStep := false, email := "", newPassword := "", confirmPassword := ""),
                Alert(PasswordUpdated))
    else if f.password == "" then
      Outcome(f.(error := PasswordRequired), Stay)
    else
      Outcome(f.(error := ""), Navigate(HomePath))
  }

  /** What an event does to the page. */
  function Step(f: Form, e: Event): (r: Outcome)
    ensures Consistent(f) ==> Consistent(r.form)
    ensures Reachable(f) && Enabled(f, e) ==> Reachable(r.form)
    // "Back to Login" leaves both flags down; "Forgot Password?" enters the link step
    ensures e == BackToLoginClick ==> FormMode(r.form) == SignIn && !r.form.resetStep
    ensures e == ForgotPasswordClick && !f.resetStep ==> FormMode(r.form) == SendResetLink
    // the mode changes only by the buttons or by the two submit transitions
    ensures FormMode(r.form) != FormMode(f) && e.Submit? ==>
      || (FormMode(f) == SendResetLink && FormMode(r.form) == UpdatePassword)
      || (FormMode(f) == UpdatePassword && FormMode(r.form) == SignIn)
    ensures e.EditEmail? || e.EditPassword? || e.EditNewPassword? || e.EditConfirmPassword? ==>
      FormMode(r.form) == FormMode(f) && r.form.error == f.error
  {
    match e
    case Submit => HandleSubmit(f)
    case ForgotPasswordClick => Outcome(f.(forgotPassword := true), Stay)
    case BackToLoginClick => Outcome(f.(forgotPassword := false, resetStep := false), Stay)
    case EditEmail(s) => Outcome(f.(email := s), Stay)
    case EditPassword(s) => Outcome(f.(password := s), Stay)
    case EditNewPassword(s) => Outcome(f.(newPassword := s), Stay)
    case EditConfirmPassword(s) => Outcome(f.(confirmPassword := s), Stay)
  }

  /** The page after a sequence of events, in order. */
  function Run(f: Form, events: seq<Event>): Form
    decreases |events|
  {
    if events == [] then f else Run(Step(f, events[0]).form, events[1..])
  }

  /** Every event is enabled when it happens. */
  predicate EnabledRun(f: Form, events: seq<Event>)
    decreases |events|
  {
    events == [] || (Enabled(f, events[0]) && EnabledRun(Step(f, events[0]).form, events[1..]))
  }

  /** Whatever happens, `resetStep` implies `forgotPassword`. */
  lemma {:induction false} RunStaysConsistent(f: Form, events: seq<Event>)
    requires Consistent(f)
    ensures Consistent(Run(f, events))
    decreases |events|
  {
    if events != [] {
      RunStaysConsistent(Step(f, events[0]).form, events[1..]);
    }
  }

  /** Along what the page lets the user do, the update step always has an email. */
  lemma {:induction false} EnabledRunStaysReachable(f: Form, events: seq<Event>)
    requires Reachable(f) && EnabledRun(f, events)
    ensures Reachable(Run(f, events))
    decreases |events|
  {
    if events != [] {
      EnabledRunStaysReachable(Step(f, events[0]).form, events[1..]);
    }
  }

  /** So a real session reaches the update step only with an email, which then cannot be edited. */
  lemma UpdateStepHasEmail(events: seq<Event>)
    requires EnabledRun(InitialForm, events)
    ensures var f := Run(InitialForm, events);
            FormMode(f) == UpdatePassword ==> f.email != ""
  {
    EnabledRunStaysReachable(InitialForm, events);
  }

  /** Asking for a reset link does not clear an earlier error: it is still shown in the update step. */
  lemma StaleErrorReachesUpdateStep()
    ensures var events := [ForgotPasswordClick, Submit, EditEmail("a@b.c"), Submit];
            var f := Run(InitialForm, events);
            EnabledRun(InitialForm, events) && FormMode(f) == UpdatePassword && f.error == EmailRequired
  {
  }

  /** The page, with the component's state fields. */
  class LoginPage {
    var email: string
    var password: string
    var newPassword: string
    var confirmPassword: string
    var error: string
    var forgotPassword: bool
    var resetStep: bool

    function State(): Form
      reads this
    {
      Form(email, password, newPassword, confirmPassword, error, forgotPassword, resetStep)
    }

    constructor ()
      ensures State() == InitialForm
    {
      email, password, newPassword, confirmPassword, error := "", "", "", "", "";
      forgotPassword, resetStep := false, false;
    }

    /** `handleSubmit`: one setter at a time, with early returns. */
    method HandleSubmitEvent() returns (effect: Effect)
      modifies this
      ensures Outcome(State(), effect) == Step(old(State()), Submit)
    {
      if email == "" {
        error := EmailRequired;
        return Stay;
      }
      if forgotPassword && !resetStep {
        resetStep := true;
        return Alert(ResetLinkSent);
      }
      if forgotPassword && resetStep {
        if newPassword == "" || confirmPassword == "" {
          error := FieldsRequired;
          return Stay;
        }
        if newPassword != confirmPassword {
          error := PasswordsDiffer;
          return Stay;
        }
        forgotPassword := false;
        resetStep := false;
        email := "";
        newPassword := "";
        confirmPassword := "";
        return Alert(PasswordUpdated);
      }
      if password == "" {
        error := PasswordRequired;
        return Stay;
      }
      error := "";
      effect := Navigate(HomePath);
    }

    method ForgotPasswordButton()
      modifies this
      ensures State() == Step(old(State()), ForgotPasswordClick).form
    {
      forgotPassword := true;
    }

    method BackToLoginButton()
      modifies this
      ensures State() == Step(old(State()), BackToLoginClick).form
    {
      forgotPassword := false;
      resetStep := false;
    }

    method ChangeEmail(value: string)
      modifies this
      ensures State() == Step(old(State()), EditEmail(value)).form
    {
      email := value;
    }

    method ChangePassword(value: string)
      modifies this
      ensures State() == Step(old(State()), EditPassword(value)).form
    {
      password := value;
    }

    method ChangeNewPassword(value: string)
      modifies this
      ensures State() == Step(old(State()), EditNewPassword(value)).form
    {
      newPassword := value;
    }

    method ChangeConfirmPassword(value: string)
      modifies this
      ensures State() == Step(old(State()), EditConfirmPassword(value)).form
    {
      confirmPassword := value;
    }
  }
}
