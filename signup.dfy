/**
 * The sign-up page of app/auth/signup/page.tsx: its form schema (name,
 * e-mail, password and the confirmation that must repeat it) and what a
 * submission does. The library's e-mail check is the parameter `isEmail`;
 * the sign-up call's outcome is a parameter of `Submit`.
 */
module Signup {
  import opened Toasts

  datatype SignupValues = SignupValues(fullName: string, email: string, password: string, confirmPassword: string)

  const EmptyForm := SignupValues("", "", "", "")

  datatype Field = FullName | Email | Password | ConfirmPassword

  const NameMessage := "Full name must be at least 2 characters."
  const EmailMessage := "Please enter a valid email address."
  const PasswordMessage := "Password must be at least 6 characters."
  const MismatchMessage := "Passwords don't match"
  const MinNameLength := 2
  const MinPasswordLength := 6

  /** The message shown under a field whose rule failed; each rule has its own. */
  function MessageFor(f: Field): (m: string)
    ensures f == ConfirmPassword <==> m == MismatchMessage
    ensures f == FullName <==> m == NameMessage
  {
    match f
    case FullName => NameMessage
    case Email => EmailMessage
    case Password => PasswordMessage
    case ConfirmPassword => MismatchMessage
  }

  /**
   * `formSchema`: the fields whose rule fails, in field order; the
   * object-level refinement that compares the passwords is reported on
   * `confirmPassword`.
   */
  function FieldErrors(v: SignupValues, isEmail: string -> bool): (r: seq<Field>)
    ensures FullName in r <==> |v.fullName| < MinNameLength
    ensures Email in r <==> !isEmail(v.email)
    ensures Password in r <==> |v.password| < MinPasswordLength
    ensures ConfirmPassword in r <==> v.password != v.confirmPassword
    ensures r == [] <==>
      |v.fullName| >= MinNameLength && isEmail(v.email) && |v.password| >= MinPasswordLength
      && v.password == v.confirmPassword
  {
    (if |v.fullName| >= MinNameLength then [] else [FullName])
    + (if isEmail(v.email) then [] else [Email])
    + (if |v.password| >= MinPasswordLength then [] else [Password])
    + (if v.password == v.confirmPassword then [] else [ConfirmPassword])
  }

  /** A confirmation that differs is rejected even when the password itself is acceptable. */
  lemma MismatchAloneRejects(v: SignupValues, isEmail: string -> bool)
    requires |v.fullName| >= MinNameLength && isEmail(v.email) && |v.password| >= MinPasswordLength
    requires v.password != v.confirmPassword
    ensures FieldErrors(v, isEmail) == [ConfirmPassword]
  {
  }

  /** The empty form fails on the name and the password, whatever counts as an e-mail. */
  lemma EmptyFormRejected(isEmail: string -> bool)
    ensures FullName in FieldErrors(EmptyForm, isEmail) && Password in FieldErrors(EmptyForm, isEmail)
    ensures ConfirmPassword !in FieldErrors(EmptyForm, isEmail)
  {
  }

  /** A field's `onChange`: that field takes the new text and the others keep theirs. */
  function WithField(v: SignupValues, f: Field, text: string): (r: SignupValues)
    ensures f == FullName ==> r == v.(fullName := text)
    ensures f == Email ==> r == v.(email := text)
    ensures f == Password ==> r == v.(password := text)
    ensures f == ConfirmPassword ==> r == v.(confirmPassword := text)
  {
    match f
    case FullName => v.(fullName := text)
    case Email => v.(email := text)
    case Password => v.(password := text)
    case ConfirmPassword => v.(confirmPassword := text)
  }

  /**
   * Re-validation of one field after a submit (`reValidateMode: 'onChange'`):
   * the schema runs on the new values, but only the edited field's message
   * is replaced; the other fields keep theirs. Fields stay in form order.
   */
  function Revalidated(errors: seq<Field>, f: Field, v: SignupValues, isEmail: string -> bool): (r: seq<Field>)
    ensures forall g :: g in r <==> if g == f then g in FieldErrors(v, isEmail) else g in errors
    ensures |r| <= 4
  {
    var now := FieldErrors(v, isEmail);
    Shown(errors, now, f, FullName) + Shown(errors, now, f, Email)
    + Shown(errors, now, f, Password) + Shown(errors, now, f, ConfirmPassword)
  }

  /** Field g's message after re-validating f: fresh for f, the old one otherwise. */
  function Shown(errors: seq<Field>, now: seq<Field>, f: Field, g: Field): (r: seq<Field>)
    ensures forall h :: h in r <==> h == g && (if g == f then g in now else g in errors)
    ensures |r| <= 1
  {
    if (if g == f then g in now else g in errors) then [g] else []
  }

  /**
   * The refinement's message sits on the confirmation field, so fixing the
   * password alone leaves "Passwords don't match" on screen, while retyping
   * the confirmation to match removes it.
   */
  lemma MismatchFollowsConfirmation(errors: seq<Field>, v: SignupValues, text: string, isEmail: string -> bool)
    requires ConfirmPassword in errors
    ensures ConfirmPassword in Revalidated(errors, Password, WithField(v, Password, text), isEmail)
    ensures ConfirmPassword !in Revalidated(errors, ConfirmPassword, WithField(v, ConfirmPassword, v.password), isEmail)
  {
  }

  /** What `auth.signUp` does: throw, report an error, or create the account. */
  datatype SignUpOutcome = Threw | Refused(message: string) | Created

  /** The account request sent: the credentials and the name as user metadata. */
  datatype SignUpRequest = SignUpRequest(email: string, password: string, fullName: string)

  /** The success text exactly as the source holds it (a sparkle emoji stored mis-encoded). */
  const CreatedMessage := "Account created! Check your email to confirm. \U{E2}\U{153}\U{A8}"
  const ThrewMessage := "Something went wrong."
  const LoginPath := "/auth/login"
  const SignupPath := "/auth/signup"

  /** The toast a submission raises. */
  function OutcomeToast(outcome: SignUpOutcome): (t: Toast)
    ensures t.Success? <==> outcome.Created?
    ensures outcome.Refused? ==> t == Error("Signup failed. " + outcome.message)
  {
    match outcome
    case Threw => Error(ThrewMessage)
    case Refused(message) => Error("Signup failed. " + message)
    case Created => Success(CreatedMessage)
  }

  /** The sign-up page component's state. */
  class SignupPage {
    var values: SignupValues
    /** The fields showing their rule's message. */
    var errors: seq<Field>
    var isLoading: bool
    /** The current route. */
    var path: string
    var requests: seq<SignUpRequest>
    var toasts: seq<Toast>
    /** The form's `isSubmitted`: set by the first submit attempt. */
    var submitted: bool

    constructor ()
      ensures values == EmptyForm && errors == [] && !isLoading && path == SignupPath
      ensures requests == [] && toasts == [] && !submitted
    {
      values := EmptyForm;
      errors := [];
      isLoading := false;
      path := SignupPath;
      requests := [];
      toasts := [];
      submitted := false;
    }

    /**
     * The user changes one field. Before the first submit nothing is
     * validated; afterwards the edited field's message is re-computed from
     * the new values and the other fields keep theirs.
     */
    method Edit(f: Field, text: string, isEmail: string -> bool)
      modifies this
      ensures values == WithField(old(values), f, text)
      ensures errors == if submitted then Revalidated(old(errors), f, values, isEmail) else old(errors)
      ensures isLoading == old(isLoading) && path == old(path) && submitted == old(submitted)
      ensures requests == old(requests) && toasts == old(toasts)
    {
      values := WithField(values, f, text);
      if submitted {
        errors := Revalidated(errors, f, values, isEmail);
      }
    }

    /**
     * `form.handleSubmit(onSubmit)`: invalid values only show their errors;
     * valid ones send the request, toast the outcome, and move to the login
     * page exactly when the account was created. `isLoading` ends false.
     */
    method Submit(isEmail: string -> bool, outcome: SignUpOutcome)
      modifies this
      ensures errors == FieldErrors(old(values), isEmail)
      ensures errors != [] ==>
        isLoading == old(isLoading) && path == old(path) && requests == old(requests) && toasts == old(toasts)
      ensures errors == [] ==>
        !isLoading
        && requests == old(requests) + [SignUpRequest(values.email, values.password, values.fullName)]
        && toasts == old(toasts) + [OutcomeToast(outcome)]
        && (path == LoginPath <==> outcome.Created? || old(path) == LoginPath)
        && (!outcome.Created? ==> path == old(path))
      ensures values == old(values) && submitted
    {
      submitted := true;
      errors := FieldErrors(values, isEmail);
      if errors != [] {
        return;
      }
      isLoading := true;
      requests := requests + [SignUpRequest(values.email, values.password, values.fullName)];
      match outcome {
        case Threw =>
          toasts := toasts + [Error(ThrewMessage)];
        case Refused(message) =>
          toasts := toasts + [Error("Signup failed. " + message)];
        case Created =>
          toasts := toasts + [Success(CreatedMessage)];
          path := LoginPath;
      }
      isLoading := false;
    }
  }
}
