/**
 * `TransactionList` of components/transaction-list.tsx: the recent-records
 * table. Its state (`transactions`, `loading`, `error`) is stepped through
 * by `fetchTransactions`, which runs on mount and again on every realtime
 * change; the database answers are inputs.
 */
module TransactionList {
  import opened Wrappers
  import opened Types
  import opened Text
  import opened IconLookup

  const DefaultIcon: string := "\U{1F4B3}"

  /** `categoryIcons`, in declaration order; its keys are already lower-case. */
  const Icons: seq<IconEntry> := [
    IconEntry("salary", "\U{1F4B0}"),
    IconEntry("freelance", "\U{1F4BC}"),
    IconEntry("groceries", "\U{1F6D2}"),
    IconEntry("entertainment", "\U{1F3AC}"),
    IconEntry("transport", "\U{1F697}"),
    IconEntry("utilities", "\U{1F4A1}"),
    IconEntry("dining", "\U{1F37D}\U{FE0F}"),
    IconEntry("shopping", "\U{1F6CD}\U{FE0F}"),
    IconEntry("health", "\U{1F3E5}"),
    IconEntry("education", "\U{1F4DA}"),
    IconEntry("default", DefaultIcon)
  ]

  /** `getCategoryIcon`: the keys are compared as written against the lower-cased category. */
  method GetCategoryIcon(category: string) returns (icon: string)
    ensures icon == FirstMatch(Icons, ToLower(category), false, DefaultIcon)
  {
    var lowerCategory := ToLower(category);
    icon := LookupIcon(Icons, lowerCategory, false, DefaultIcon);
  }

  /** An empty category gets the default icon. */
  lemma EmptyCategoryDefault()
    ensures FirstMatch(Icons, ToLower(""), false, DefaultIcon) == DefaultIcon
  {
    assert ToLower("") == [];
    EmptyTextMisses(Icons, false);
    FirstMatchNone(Icons, [], false, DefaultIcon);
  }

  // ---------------------------------------------------------------------
  // Fetching
  // ---------------------------------------------------------------------

  /** A PostgREST error: its `code` and `message`. */
  datatype QueryError = QueryError(code: string, message: string)

  /** What one `select` resolves to: rows (possibly `null`) or an error. */
  datatype QueryResult = Rows(data: Option<seq<Transaction>>) | Failed(err: QueryError)

  /**
   * What one run of `fetchTransactions` meets: the answer to the query and,
   * used only when that failed, the answer to the retry; or an exception
   * from the client.
   */
  datatype FetchOutcome = Answered(first: QueryResult, retry: QueryResult) | Threw

  const NotSetUpMessage: string := "Database not set up. Run the SQL schema in Supabase."

  /** The retry's error means the table does not exist yet. */
  predicate TableMissing(e: QueryError)
    ensures e.code == "42P01" ==> TableMissing(e)
    ensures TableMissing(e) && e.code != "42P01" ==> exists i :: OccursAt(e.message, "undefined_table", i)
  {
    e.code == "42P01" || Contains(e.message, "undefined_table")
  }

  /** The rows a successful answer provides: `data || []`. */
  function RowsOf(r: QueryResult): seq<Transaction>
    requires r.Rows?
  {
    r.data.GetOr([])
  }

  /** The error and the list a fetch leaves behind, given the list it started with. */
  function FetchResult(outcome: FetchOutcome, before: seq<Transaction>): (r: (Option<string>, seq<Transaction>))
    ensures r.0.Some? <==> outcome.Answered? && outcome.first.Failed? && outcome.retry.Failed?
                           && !TableMissing(outcome.retry.err)
    ensures r.0.Some? ==> r.0.value == NotSetUpMessage && r.1 == before
    ensures outcome.Threw? ==> r.1 == []
    ensures outcome.Answered? && outcome.first.Rows? ==> r.1 == RowsOf(outcome.first)
    ensures outcome.Answered? && outcome.first.Failed? && outcome.retry.Rows? ==> r.1 == RowsOf(outcome.retry)
    ensures outcome.Answered? && outcome.first.Failed? && outcome.retry.Failed? && TableMissing(outcome.retry.err) ==>
              r.1 == []
  {
    match outcome
    case Threw => (None, [])
    case Answered(first, retry) =>
      if first.Rows? then (None, RowsOf(first))
      else if retry.Rows? then (None, RowsOf(retry))
      else if TableMissing(retry.err) then (None, [])
      else (Some(NotSetUpMessage), before)
  }

  /** One row of the table as it is drawn. */
  datatype RowView = RowView(icon: string, category: string, description: string, sign: char, magnitude: real)

  datatype ListView =
    | Spinner
    | Failure(message: string)
    | NothingYet
    | Table(rows: seq<RowView>)

  function Abs(x: real): (r: real)
    ensures r >= 0.0 && (r == x || r == -x)
  {
    if x < 0.0 then -x else x
  }

  /** `description || '-'`. */
  function DescriptionText(d: Nullable<string>): (s: string)
    ensures s == "-" <==> !d.Present? || d.value == "" || d.value == "-"
    ensures d.Present? && d.value != "" ==> s == d.value
  {
    match d
    case Present(v) => if v == "" then "-" else v
    case _ => "-"
  }

  /** A row: icon, category badge, description, then `'+'` for income and `'-'` otherwise before `|amount|`. */
  function RowOf(t: Transaction): (v: RowView)
    ensures v.sign == '+' <==> t.kind == Income
    ensures v.sign == '-' <==> t.kind != Income
    ensures v.magnitude >= 0.0 && (v.magnitude == t.amount || v.magnitude == -t.amount)
    ensures v.icon == FirstMatch(Icons, ToLower(t.category), false, DefaultIcon)
    ensures v.category == t.category && v.description == DescriptionText(t.description)
  {
    RowView(FirstMatch(Icons, ToLower(t.category), false, DefaultIcon), t.category,
            DescriptionText(t.description), if t.kind == Income then '+' else '-', Abs(t.amount))
  }

  class TransactionListState {
    var transactions: seq<Transaction>
    var loading: bool
    var error: Option<string>
    /** Whether the realtime channel is subscribed. */
    var subscribed: bool

    /** The initial state: an empty list, loading, no error, no channel yet. */
    constructor ()
      ensures transactions == [] && loading && error == None && !subscribed
    {
      transactions := [];
      loading := true;
      error := None;
      subscribed := false;
    }

    /**
     * `fetchTransactions`: `loading` is raised and `error` cleared; on a
     * failed query the same query is retried once; a missing table or an
     * exception leaves an empty list and no error, any other retry failure
     * leaves the list as it was and sets the set-up message. `loading` is
     * lowered at the end whatever happened.
     */
    method Fetch(outcome: FetchOutcome)
      modifies this
      ensures !loading
      ensures (error, transactions) == FetchResult(outcome, old(transactions))
      ensures subscribed == old(subscribed)
    {
      loading := true;
      error := None;
      match outcome {
        case Threw =>
          transactions := [];
        case Answered(first, retry) =>
          if first.Failed? {
            if retry.Failed? {
              if retry.err.code == "42P01" || Contains(retry.err.message, "undefined_table") {
                transactions := [];
              } else {
                error := Some(NotSetUpMessage);
              }
            } else {
              transactions := retry.data.GetOr([]);
            }
          } else {
            transactions := first.data.GetOr([]);
          }
      }
      loading := false;
    }

    /** The effect on mount: fetch, then subscribe to realtime changes. */
    method Mount(outcome: FetchOutcome)
      modifies this
      ensures !loading && subscribed
      ensures (error, transactions) == FetchResult(outcome, old(transactions))
    {
      Fetch(outcome);
      subscribed := true;
    }

    /** Any insert, update or delete on the table re-runs the whole fetch. */
    method OnChange(outcome: FetchOutcome)
      requires subscribed
      modifies this
      ensures !loading && subscribed
      ensures (error, transactions) == FetchResult(outcome, old(transactions))
    {
      Fetch(outcome);
    }

    /** The effect's cleanup: the channel is removed and nothing else changes. */
    method Unmount()
      modifies this
      ensures !subscribed
      ensures transactions == old(transactions) && loading == old(loading) && error == old(error)
    {
      subscribed := false;
    }

    /** What is rendered: the spinner, then the error, then the empty notice, then the table. */
    function View(): (v: ListView)
      reads this
      ensures v.Spinner? <==> loading
      ensures v.Failure? <==> !loading && error.Some?
      ensures v.Failure? ==> v.message == error.value
      ensures v.NothingYet? <==> !loading && error.None? && transactions == []
      ensures v.Table? ==> |v.rows| == |transactions|
      ensures v.Table? ==> forall i :: 0 <= i < |transactions| ==> v.rows[i] == RowOf(transactions[i])
    {
      if loading then Spinner
      else if error.Some? then Failure(error.value)
      else if transactions == [] then NothingYet
      else
        var ts := transactions;
        Table(seq(|ts|, i requires 0 <= i < |ts| => RowOf(ts[i])))
    }
  }
}
