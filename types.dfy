/**
 * The record shapes of lib/types.ts: a transaction is income or expense,
 * entered on the web or over WhatsApp; a user has an optional, nullable phone.
 */
module Types {
  import opened Wrappers

  /** `TransactionType = 'income' | 'expense'`. */
  datatype TransactionType = Income | Expense

  /** `TransactionSource = 'web' | 'whatsapp'`. */
  datatype TransactionSource = Web | WhatsApp

  /** A TypeScript field declared `x?: T | null`: absent, null, or a value. */
  datatype Nullable<+T> = Absent | Null | Present(value: T)

  datatype Transaction = Transaction(
    id: string,
    userId: string,
    amount: real,
    kind: TransactionType,
    category: string,
    source: TransactionSource,
    description: Nullable<string>,  // `description?: string | null`
    createdAt: string)

  datatype User = User(
    id: string,
    phone: Nullable<string>,         // `phone?: string | null`
    createdAt: string,
    updatedAt: Option<string>)       // `updated_at?: string`

  /** The wire spelling of a transaction type. */
  function TypeName(t: TransactionType): (s: string)
    ensures ParseType(s) == Some(t)
  {
    match t
    case Income => "income"
    case Expense => "expense"
  }

  /** Reads a transaction type; exactly the two spellings are accepted. */
  function ParseType(s: string): (r: Option<TransactionType>)
    ensures r.Some? <==> s == "income" || s == "expense"
    ensures r.Some? ==> (s == "income" <==> r.value == Income)
  {
    if s == "income" then Some(Income)
    else if s == "expense" then Some(Expense)
    else None
  }

  /** The wire spelling of a transaction source. */
  function SourceName(s: TransactionSource): (w: string)
    ensures ParseSource(w) == Some(s)
  {
    match s
    case Web => "web"
    case WhatsApp => "whatsapp"
  }

  /** Reads a transaction source; exactly the two spellings are accepted. */
  function ParseSource(w: string): (r: Option<TransactionSource>)
    ensures r.Some? <==> w == "web" || w == "whatsapp"
    ensures r.Some? ==> (w == "web" <==> r.value == Web)
  {
    if w == "web" then Some(Web)
    else if w == "whatsapp" then Some(WhatsApp)
    else None
  }
}
