/**
 * The "Add Transaction" dialog of components/add-transaction-dialog.tsx: the
 * form schema, the category choices offered for the selected type, the record
 * sent to the `transactions` table, the classification of insert errors, and
 * the dialog's state (open, loading, success, the form values).
 *
 * JavaScript's `Number` on a non-blank string and `parseFloat` are taken as
 * parameters (`numeral`, `parseFloat`); a `None` from `numeral` is NaN.
 */
module AddTransaction {
  import opened Wrappers
  import opened Types
  import Text
  import opened Toasts

  /** The raw form values, as react-hook-form holds them. */
  datatype FormValues = FormValues(amount: string, kind: string, category: string, description: Option<string>)

  /** `defaultValues` of the form. */
  const Defaults := FormValues("", "expense", "", Some(""))

  /** What the schema can object to, one issue per field. */
  datatype Issue = AmountNotPositive | TypeNotAllowed | CategoryMissing

  /** The schema's own messages; the enum check uses the library's default text. */
  function IssueMessage(i: Issue): (m: Option<string>)
    ensures m.None? <==> i == TypeNotAllowed
  {
    match i
    case AmountNotPositive => Some("Amount must be a positive number.")
    case TypeNotAllowed => None
    case CategoryMissing => Some("Category is required.")
  }

  /** The white space and line terminators `Number` trims. */
  predicate IsWhiteSpace(c: char) {
    c == '\t' || c == '\n' || c == '\U{B}' || c == '\U{C}' || c == '\r' || c == ' '
    || c == '\U{A0}' || c == '\U{1680}' || ('\U{2000}' <= c <= '\U{200A}')
    || c == '\U{2028}' || c == '\U{2029}' || c == '\U{202F}' || c == '\U{205F}'
    || c == '\U{3000}' || c == '\U{FEFF}'
  }

  predicate Blank(s: string) {
    forall i :: 0 <= i < |s| ==> IsWhiteSpace(s[i])
  }

  /**
   * `Number(s)`: a blank string is 0; anything else is read by `numeral`,
   * `None` standing for NaN.
   */
  function NumberOf(s: string, numeral: string -> Option<real>): (r: Option<real>)
    ensures Blank(s) ==> r == Some(0.0)
    ensures !Blank(s) ==> r == numeral(s)
  {
    if Blank(s) then Some(0.0) else numeral(s)
  }

  /** The amount refinement: `!isNaN(Number(val)) && Number(val) > 0`. */
  predicate AmountAccepted(s: string, numeral: string -> Option<real>) {
    var n := NumberOf(s, numeral);
    n.Some? && n.value > 0.0
  }

  /** The values the schema hands to the submit handler. */
  datatype ValidForm = ValidForm(amount: string, kind: TransactionType, category: string, description: Option<string>)

  datatype Checked = Valid(form: ValidForm) | Invalid(issues: seq<Issue>)

  /** Every field is checked; the issues come in field order. */
  function Issues(v: FormValues, numeral: string -> Option<real>): (r: seq<Issue>)
    ensures AmountNotPositive in r <==> !AmountAccepted(v.amount, numeral)
    ensures TypeNotAllowed in r <==> v.kind != "income" && v.kind != "expense"
    ensures CategoryMissing in r <==> v.category == ""
    ensures |r| <= 3
  {
    (if AmountAccepted(v.amount, numeral) then [] else [AmountNotPositive])
    + (if ParseType(v.kind).Some? then [] else [TypeNotAllowed])
    + (if |v.category| >= 1 then [] else [CategoryMissing])
  }

  /** `formSchema` applied to the form values. */
  function Validate(v: FormValues, numeral: string -> Option<real>): (r: Checked)
    ensures r.Valid? <==>
      AmountAccepted(v.amount, numeral) && (v.kind == "income" || v.kind == "expense") && v.category != ""
    ensures r.Valid? ==>
      r.form.amount == v.amount && TypeName(r.form.kind) == v.kind
      && r.form.category == v.category && r.form.description == v.description
    ensures r.Invalid? ==> r.issues == Issues(v, numeral) && r.issues != []
  {
    var issues := Issues(v, numeral);
    if issues == [] then
      Valid(ValidForm(v.amount, ParseType(v.kind).value, v.category, v.description))
    else
      Invalid(issues)
  }

  /** `Number("")` is 0, so an empty amount never passes, whatever `numeral` is. */
  lemma BlankAmountRejected(v: FormValues, numeral: string -> Option<real>)
    requires Blank(v.amount)
    ensures Validate(v, numeral).Invalid?
    ensures AmountNotPositive in Validate(v, numeral).issues
  {
  }

  /** The untouched form objects to the amount and the category, and not to the type. */
  lemma DefaultsRejected(numeral: string -> Option<real>)
    ensures Validate(Defaults, numeral) == Invalid([AmountNotPositive, CategoryMissing])
  {
    assert Blank(Defaults.amount);
  }

  /** The form's fields, in the order the dialog shows them. */
  datatype FormField = AmountField | TypeField | CategoryField | DescriptionField

  /** The field under which an issue's message is shown. */
  function FieldOf(i: Issue): (f: FormField)
    ensures f != DescriptionField
  {
    match i
    case AmountNotPositive => AmountField
    case TypeNotAllowed => TypeField
    case CategoryMissing => CategoryField
  }

  /** A field's `onChange`: that field takes the new text and the others keep theirs. */
  function WithField(v: FormValues, f: FormField, text: string): (r: FormValues)
    ensures f == AmountField ==> r == v.(amount := text)
    ensures f == TypeField ==> r == v.(kind := text)
    ensures f == CategoryField ==> r == v.(category := text)
    ensures f == DescriptionField ==> r == v.(description := Some(text))
  {
    match f
    case AmountField => v.(amount := text)
    case TypeField => v.(kind := text)
    case CategoryField => v.(category := text)
    case DescriptionField => v.(description := Some(text))
  }

  /**
   * Re-validation of one field after a submit (`reValidateMode: 'onChange'`):
   * the schema runs on the new values, but only the edited field's issue is
   * replaced; every other field keeps the issue it showed. Issues stay in
   * field order.
   */
  function Revalidated(issues: seq<Issue>, f: FormField, v: FormValues, numeral: string -> Option<real>): (r: seq<Issue>)
    ensures forall i :: i in r <==> if FieldOf(i) == f then i in Issues(v, numeral) else i in issues
    ensures |r| <= 3
  {
    var now := Issues(v, numeral);
    Shown(issues, now, f, AmountNotPositive) + Shown(issues, now, f, TypeNotAllowed)
    + Shown(issues, now, f, CategoryMissing)
  }

  /** Issue i after re-validating field f: fresh for f's issue, the old one otherwise. */
  function Shown(issues: seq<Issue>, now: seq<Issue>, f: FormField, i: Issue): (r: seq<Issue>)
    ensures forall j :: j in r <==> j == i && (if FieldOf(i) == f then i in now else i in issues)
    ensures |r| <= 1
  {
    if (if FieldOf(i) == f then i in now else i in issues) then [i] else []
  }

  /**
   * After a failed submit, re-validating every field in turn leaves exactly
   * the issues of the current values.
   */
  lemma RevalidatingEveryFieldRefreshesAll(issues: seq<Issue>, v: FormValues, numeral: string -> Option<real>)
    ensures var r := Revalidated(Revalidated(Revalidated(issues, AmountField, v, numeral), TypeField, v, numeral),
                                 CategoryField, v, numeral);
      forall i :: i in r <==> i in Issues(v, numeral)
  {
    var r1 := Revalidated(issues, AmountField, v, numeral);
    var r2 := Revalidated(r1, TypeField, v, numeral);
    var r3 := Revalidated(r2, CategoryField, v, numeral);
    forall i ensures i in r3 <==> i in Issues(v, numeral) {
      match i
      case AmountNotPositive =>
      case TypeNotAllowed =>
      case CategoryMissing =>
    }
  }

  /** Editing the description never changes which issues are shown. */
  lemma DescriptionEditKeepsIssues(issues: seq<Issue>, v: FormValues, text: string, numeral: string -> Option<real>)
    ensures forall i :: i in Revalidated(issues, DescriptionField, WithField(v, DescriptionField, text), numeral) <==> i in issues
  {
  }

  const IncomeCategories: seq<string> := ["Salary", "Freelance", "Investment", "Gift", "Bonus", "Other Income"]

  const ExpenseCategories: seq<string> := [
    "Groceries", "Food & Dining", "Transport", "Utilities", "Shopping",
    "Entertainment", "Health", "Education", "Subscriptions", "Insurance", "Other"]

  /** The choices offered in the category select for the watched type. */
  function CategoriesFor(kind: string): (r: seq<string>)
    ensures kind == "income" ==> r == IncomeCategories
    ensures kind != "income" ==> r == ExpenseCategories
  {
    if kind == "income" then IncomeCategories else ExpenseCategories
  }

  /** No category is offered for both types, and every choice meets the category rule. */
  lemma CategoryListsDisjoint()
    ensures forall c :: c in IncomeCategories ==> c !in ExpenseCategories
    ensures forall c :: c in IncomeCategories + ExpenseCategories ==> c != ""
  {
  }

  /** The income list is offered exactly when the type is income; the form starts on expenses. */
  lemma CategoriesFollowType(kind: string)
    ensures CategoriesFor(kind) == IncomeCategories <==> kind == "income"
    ensures CategoriesFor(Defaults.kind) == ExpenseCategories
  {
    assert IncomeCategories[0] != ExpenseCategories[0];
  }

  /** The row handed to `insert`; a `None` description is SQL null. */
  datatype NewTransaction = NewTransaction(
    userId: string,
    amount: real,
    kind: TransactionType,
    category: string,
    description: Option<string>,
    source: TransactionSource)

  /** `values.description || null`: an empty or missing description becomes null. */
  function DescriptionOrNull(d: Option<string>): (r: Option<string>)
    ensures r.None? <==> d.None? || d.value == ""
    ensures r.Some? ==> r == d
  {
    if d.Some? && d.value != "" then d else None
  }

  /** `transactionData`: the user's id, the parsed amount, the form fields and source `web`. */
  function BuildRecord(userId: string, f: ValidForm, parseFloat: string -> real): (r: NewTransaction)
    ensures r.userId == userId && r.amount == parseFloat(f.amount) && r.source == Web
    ensures r.kind == f.kind && r.category == f.category
    ensures r.description.None? <==> f.description.None? || f.description == Some("")
    ensures r.description.Some? ==> r.description == f.description
  {
    NewTransaction(userId, parseFloat(f.amount), f.kind, f.category, DescriptionOrNull(f.description), Web)
  }

  /**
   * The stored amount is positive when `parseFloat` reads the accepted amount
   * as `Number` does (they differ on, e.g., hexadecimal strings).
   */
  lemma RecordAmountPositive(userId: string, v: FormValues, numeral: string -> Option<real>, parseFloat: string -> real)
    requires Validate(v, numeral).Valid?
    requires numeral(v.amount) == Some(parseFloat(v.amount))
    ensures BuildRecord(userId, Validate(v, numeral).form, parseFloat).amount > 0.0
  {
  }

  const SecurityMessage := "Please log in and try again"
  const SetUpMessage := "Database not configured. Please run the SQL schema in Supabase."
  const DuplicateMessage := "Transaction already exists"
  const GenericMessage := "Failed to add transaction. Make sure the database is set up."

  /** `error?.message?.includes(piece)`: false when there is no message. */
  predicate Mentions(message: Option<string>, piece: string) {
    message.Some? && Text.Contains(message.value, piece)
  }

  /**
   * The toast text for a caught error: row-level security first, then a
   * foreign key or a category, then a duplicate, otherwise the generic text.
   */
  function ClassifyError(message: Option<string>): (r: string)
    ensures r == SecurityMessage <==> Mentions(message, "row-level security")
    ensures r == SetUpMessage <==>
      !Mentions(message, "row-level security")
      && (Mentions(message, "foreign key") || Mentions(message, "category"))
    ensures r == DuplicateMessage <==>
      !Mentions(message, "row-level security") && !Mentions(message, "foreign key")
      && !Mentions(message, "category") && Mentions(message, "duplicate")
    ensures r == GenericMessage <==>
      !Mentions(message, "row-level security") && !Mentions(message, "foreign key")
      && !Mentions(message, "category") && !Mentions(message, "duplicate")
  {
    if Mentions(message, "row-level security") then SecurityMessage
    else if Mentions(message, "foreign key") || Mentions(message, "category") then SetUpMessage
    else if Mentions(message, "duplicate") then DuplicateMessage
    else GenericMessage
  }

  const AddedMessage := "Transaction added successfully! \U{1F389}"
  const LogInFirstMessage := "Please log in first"

  /** What `auth.getUser` gives: an exception, no user, or a user id. */
  datatype UserOutcome = UserThrew(message: Option<string>) | SignedOut | SignedIn(id: string)

  /** What one `insert` reports: accepted, or an error with its message. */
  datatype InsertResult = Inserted | Rejected(message: Option<string>)

  /** One run of the submit handler: the inserts issued, the toast, and whether it succeeded. */
  datatype Submission = Submission(sent: seq<NewTransaction>, toast: Toast, succeeded: bool)

  /**
   * The handler as evidently intended: insert once, retry the same record
   * once when the first insert fails, and report the retry's error.
   */
  function Submitted(f: ValidForm, who: UserOutcome, first: InsertResult, retry: InsertResult, parseFloat: string -> real): (s: Submission)
    ensures s.succeeded <==> who.SignedIn? && (first.Inserted? || retry.Inserted?)
    ensures |s.sent| == (if !who.SignedIn? then 0 else if first.Inserted? then 1 else 2)
  {
    match who
    case UserThrew(message) => Submission([], Error(ClassifyError(message)), false)
    case SignedOut => Submission([], Error(LogInFirstMessage), false)
    case SignedIn(id) =>
      var record := BuildRecord(id, f, parseFloat);
      if first.Inserted? then Submission([record], Success(AddedMessage), true)
      else if retry.Inserted? then Submission([record, record], Success(AddedMessage), true)
      else Submission([record, record], Error(ClassifyError(retry.message)), false)
  }

  /** What the source's `if (error2)` throws: the name is not declared. */
  const ReferenceErrorMessage := "error2 is not defined"

  /**
   * The handler as written: after a failed first insert the retry is issued,
   * then the undeclared `error2` is read, which throws a ReferenceError.
   */
  function SubmittedAsWritten(f: ValidForm, who: UserOutcome, first: InsertResult, retry: InsertResult, parseFloat: string -> real): (s: Submission)
    ensures s.succeeded <==> who.SignedIn? && first.Inserted?
    ensures |s.sent| == (if !who.SignedIn? then 0 else if first.Inserted? then 1 else 2)
  {
    match who
    case UserThrew(message) => Submission([], Error(ClassifyError(message)), false)
    case SignedOut => Submission([], Error(LogInFirstMessage), false)
    case SignedIn(id) =>
      var record := BuildRecord(id, f, parseFloat);
      if first.Inserted? then Submission([record], Success(AddedMessage), true)
      else Submission([record, record], Error(ClassifyError(Some(ReferenceErrorMessage))), false)
  }

  /**
   * The intended handler: nothing is inserted without a user; a submission
   * succeeds exactly when a user is signed in and one of the two attempts is
   * accepted; a failure's toast is the classified error.
   */
  lemma SubmittedOutcome(f: ValidForm, who: UserOutcome, first: InsertResult, retry: InsertResult, parseFloat: string -> real)
    ensures var s := Submitted(f, who, first, retry, parseFloat);
      && (!who.SignedIn? ==> s.sent == [] && !s.succeeded)
      && (s.succeeded <==> who.SignedIn? && (first.Inserted? || retry.Inserted?))
      && (s.succeeded <==> s.toast == Success(AddedMessage))
      && (who.SignedOut? ==> s.toast == Error(LogInFirstMessage))
      && (who.SignedIn? && first.Rejected? && retry.Rejected? ==> s.toast == Error(ClassifyError(retry.message)))
      && (who.SignedIn? ==>
            1 <= |s.sent| <= 2 && forall i :: 0 <= i < |s.sent| ==> s.sent[i] == BuildRecord(who.id, f, parseFloat))
  {
  }

  /**
   * Every classified piece holds a `y` or a `u`, so a message with neither
   * gets the generic text.
   */
  lemma UnclassifiedMessage(m: string)
    requires 'y' !in m && 'u' !in m
    ensures ClassifyError(Some(m)) == GenericMessage
  {
    Text.MissingCharExcludes(m, "row-level security", 'y');
    Text.MissingCharExcludes(m, "foreign key", 'y');
    Text.MissingCharExcludes(m, "category", 'y');
    Text.MissingCharExcludes(m, "duplicate", 'u');
  }

  /** The undeclared name fails every submission whose first insert fails. */
  lemma AsWrittenFallbackNeverSucceeds(f: ValidForm, id: string, first: InsertResult, retry: InsertResult, parseFloat: string -> real)
    requires first.Rejected?
    ensures var s := SubmittedAsWritten(f, SignedIn(id), first, retry, parseFloat);
      !s.succeeded && s.toast == Error(GenericMessage) && |s.sent| == 2
  {
    UnclassifiedMessage(ReferenceErrorMessage);
  }

  /**
   * The input that shows it: the first insert fails and the retry is stored,
   * yet the written handler reports a failure; the intended one a success.
   */
  lemma AsWrittenReportsStoredRetryAsFailure(f: ValidForm, id: string, parseFloat: string -> real)
    ensures SubmittedAsWritten(f, SignedIn(id), Rejected(None), Inserted, parseFloat).toast == Error(GenericMessage)
    ensures Submitted(f, SignedIn(id), Rejected(None), Inserted, parseFloat).succeeded
  {
    AsWrittenFallbackNeverSucceeds(f, id, Rejected(None), Inserted, parseFloat);
  }

  /**
   * A message naming a duplicate and none of the pieces tested before it is
   * reported as a duplicate.
   */
  lemma DuplicateClassified(m: string)
    requires !Mentions(Some(m), "row-level security") && !Mentions(Some(m), "foreign key")
    requires !Mentions(Some(m), "category") && Text.Contains(m, "duplicate")
    ensures ClassifyError(Some(m)) == DuplicateMessage
  {
  }

  /** The fixed start of PostgreSQL's unique-violation text. */
  const UniqueViolationPrefix := "duplicate" + " key" + " value" + " violates" + " unique" + " constraint" + " \""

  /** The text PostgreSQL gives a unique-constraint violation. */
  function UniqueViolation(constraint: string): string {
    UniqueViolationPrefix + constraint + "\""
  }

  lemma PrefixLacksGW()
    ensures 'g' !in UniqueViolationPrefix && 'w' !in UniqueViolationPrefix
  {
  }

  /**
   * A unique-constraint rejection is reported as a duplicate whenever the
   * constraint's name has no `g` and no `w`, as `transactions_pkey` does:
   * the fixed text holds neither, and every earlier piece holds one of them.
   */
  lemma UniqueViolationClassified(constraint: string)
    requires 'g' !in constraint && 'w' !in constraint
    ensures ClassifyError(Some(UniqueViolation(constraint))) == DuplicateMessage
  {
    var m := UniqueViolation(constraint);
    PrefixLacksGW();
    assert 'g' !in m && 'w' !in m;
    Text.MissingCharExcludes(m, "row-level security", 'w');
    Text.MissingCharExcludes(m, "foreign key", 'g');
    Text.MissingCharExcludes(m, "category", 'g');
    assert m[..9] == "duplicate";
    assert Text.OccursAt(m, "duplicate", 0);
  }

  /**
   * A duplicate reported by both attempts reaches the user only through the
   * intended handler; the written one shows the generic text.
   */
  lemma AsWrittenHidesDuplicate(f: ValidForm, id: string, m: string, parseFloat: string -> real)
    requires !Mentions(Some(m), "row-level security") && !Mentions(Some(m), "foreign key")
    requires !Mentions(Some(m), "category") && Text.Contains(m, "duplicate")
    ensures SubmittedAsWritten(f, SignedIn(id), Rejected(Some(m)), Rejected(Some(m)), parseFloat).toast
      == Error(GenericMessage)
    ensures Submitted(f, SignedIn(id), Rejected(Some(m)), Rejected(Some(m)), parseFloat).toast
      == Error(DuplicateMessage)
  {
    AsWrittenFallbackNeverSucceeds(f, id, Rejected(Some(m)), Rejected(Some(m)), parseFloat);
  }

  /** The dialog component's state. */
  class AddTransactionDialog {
    var open: bool
    var isLoading: bool
    var success: bool
    var values: FormValues
    /** The schema's issues from the last submit attempt. */
    var issues: seq<Issue>
    /** Every row handed to `insert`, in order. */
    var sent: seq<NewTransaction>
    var toasts: seq<Toast>
    /** Whether the 1.5-second reset after a success is pending. */
    var resetPending: bool
    /** The form's `isSubmitted`: set by a submit attempt, cleared by `form.reset()`. */
    var submitted: bool

    constructor ()
      ensures !open && !isLoading && !success && values == Defaults
      ensures issues == [] && sent == [] && toasts == [] && !resetPending && !submitted
    {
      open := false;
      isLoading := false;
      success := false;
      values := Defaults;
      issues := [];
      sent := [];
      toasts := [];
      resetPending := false;
      submitted := false;
    }

    /** The category choices rendered for the current type. */
    function Categories(): (r: seq<string>)
      reads this
      ensures r == IncomeCategories <==> values.kind == "income"
      ensures values.kind != "income" ==> r == ExpenseCategories
    {
      CategoriesFollowType(values.kind);
      CategoriesFor(values.kind)
    }

    /**
     * The user changes one field. Before the first submit nothing is
     * validated; afterwards the edited field's issue is re-computed from the
     * new values and the other fields' issues stay as they were.
     */
    method Edit(f: FormField, text: string, numeral: string -> Option<real>)
      modifies this
      ensures values == WithField(old(values), f, text)
      ensures issues == if submitted then Revalidated(old(issues), f, values, numeral) else old(issues)
      ensures open == old(open) && isLoading == old(isLoading) && success == old(success)
      ensures sent == old(sent) && toasts == old(toasts)
      ensures resetPending == old(resetPending) && submitted == old(submitted)
    {
      values := WithField(values, f, text);
      if submitted {
        issues := Revalidated(issues, f, values, numeral);
      }
    }

    /**
     * `onOpenChange`: closing clears the success flag and resets the form,
     * which restores the defaults, drops the issues and clears `isSubmitted`.
     */
    method SetOpen(next: bool)
      modifies this
      ensures open == next
      ensures !next ==> !success && values == Defaults && issues == [] && !submitted
      ensures next ==> success == old(success) && values == old(values) && issues == old(issues)
                       && submitted == old(submitted)
      ensures isLoading == old(isLoading) && sent == old(sent)
      ensures toasts == old(toasts) && resetPending == old(resetPending)
    {
      if !next {
        success := false;
        values := Defaults;
        issues := [];
        submitted := false;
      }
      open := next;
    }

    /**
     * `form.handleSubmit(onSubmit)`: invalid values only record their issues;
     * valid ones run the handler, which inserts, toasts, and on success shows
     * the success panel and schedules the reset. `isLoading` ends false.
     */
    method Submit(numeral: string -> Option<real>, parseFloat: string -> real,
                  who: UserOutcome, first: InsertResult, retry: InsertResult)
      modifies this
      ensures Validate(old(values), numeral).Invalid? ==>
        issues == Validate(old(values), numeral).issues
        && isLoading == old(isLoading) && success == old(success) && sent == old(sent)
        && toasts == old(toasts) && resetPending == old(resetPending)
      ensures Validate(old(values), numeral).Valid? ==>
        var s := Submitted(Validate(old(values), numeral).form, who, first, retry, parseFloat);
        && issues == [] && !isLoading
        && sent == old(sent) + s.sent && toasts == old(toasts) + [s.toast]
        && success == (s.succeeded || old(success))
        && resetPending == (s.succeeded || old(resetPending))
      ensures open == old(open) && values == old(values) && submitted
    {
      submitted := true;
      var checked := Validate(values, numeral);
      if checked.Invalid? {
        issues := checked.issues;
        return;
      }
      issues := [];
      var f := checked.form;
      isLoading := true;
      match who {
        case UserThrew(message) =>
          toasts := toasts + [Error(ClassifyError(message))];
        case SignedOut =>
          toasts := toasts + [Error(LogInFirstMessage)];
        case SignedIn(id) =>
          var record := BuildRecord(id, f, parseFloat);
          sent := sent + [record];
          var stored := first.Inserted?;
          if !stored {
            sent := sent + [record];
            if retry.Rejected? {
              toasts := toasts + [Error(ClassifyError(retry.message))];
            } else {
              stored := true;
            }
          }
          if stored {
            success := true;
            toasts := toasts + [Success(AddedMessage)];
            resetPending := true;
          }
      }
      isLoading := false;
    }

    /** The pending reset fires: the form is reset (defaults, no issues, not submitted) and the dialog closes. */
    method ResetTimerFires()
      requires resetPending
      modifies this
      ensures values == Defaults && issues == [] && !submitted && !success && !open && !resetPending
      ensures isLoading == old(isLoading) && sent == old(sent) && toasts == old(toasts)
    {
      values := Defaults;
      issues := [];
      submitted := false;
      success := false;
      open := false;
      resetPending := false;
    }
  }
}
