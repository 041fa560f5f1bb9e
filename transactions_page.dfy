/**
 * The records page of app/dashboard/transactions/page.tsx: it loads the
 * user's records, then shows income, expense and a signed net balance
 * whose colour and encouragement follow the balance's sign.
 */
module TransactionsPage {
  import opened Wrappers
  import opened Types
  import opened Ledger

  /** The balance card's colour scheme. */
  datatype Tone = Calm | Warning

  /** `{balance >= 0 ? '+' : '-'}` followed by `Math.abs(balance)`. */
  datatype SignedAmount = SignedAmount(sign: char, magnitude: real)

  function NetBalanceText(balance: real): (s: SignedAmount)
    ensures s.sign == '+' <==> balance >= 0.0
    ensures s.sign == '-' <==> balance < 0.0
    ensures s.magnitude >= 0.0
  {
    SignedAmount(if balance >= 0.0 then '+' else '-', if balance < 0.0 then -balance else balance)
  }

  /** Reading the sign and the magnitude back gives the balance. */
  function SignedValue(s: SignedAmount): real {
    if s.sign == '+' then s.magnitude else -s.magnitude
  }

  lemma NetBalanceRoundTrip(balance: real)
    ensures SignedValue(NetBalanceText(balance)) == balance
  {
  }

  /** The indigo card for a non-negative balance, the amber one otherwise. */
  function ToneOf(balance: real): (t: Tone)
    ensures t == Calm <==> balance >= 0.0
  {
    if balance >= 0.0 then Calm else Warning
  }

  const PositiveMessage: string := "Great job maintaining a positive balance! Keep it up!"
  const ChallengeMessage: string := "Every journey has its challenges. You're on your way to financial freedom!"

  function Encouragement(balance: real): (m: string)
    ensures m == PositiveMessage <==> balance >= 0.0
    ensures m == ChallengeMessage <==> balance < 0.0
  {
    if balance >= 0.0 then PositiveMessage else ChallengeMessage
  }

  datatype PageView =
    | Spinner
    | Summary(income: real, expense: real, net: SignedAmount, tone: Tone,
              charts: bool, list: bool, emptyState: bool, encouragement: Option<string>)

  /** How the loading effect ends. */
  datatype LoadOutcome = Threw | NoUser | Loaded(data: Option<seq<Transaction>>)

  class TransactionsPageState {
    var transactions: seq<Transaction>
    var loading: bool

    constructor ()
      ensures transactions == [] && loading
    {
      transactions := [];
      loading := true;
    }

    /** `fetchTransactions`: the records are stored only when a user is signed in; `loading` ends false in every case. */
    method Load(outcome: LoadOutcome)
      modifies this
      ensures !loading
      ensures transactions == if outcome.Loaded? then outcome.data.GetOr([]) else old(transactions)
    {
      if outcome.Loaded? {
        transactions := outcome.data.GetOr([]);
      }
      loading := false;
    }

    function View(): (v: PageView)
      reads this
      ensures v.Spinner? <==> loading
      ensures v.Summary? ==> v.income == TypeTotal(transactions, Income) && v.expense == TypeTotal(transactions, Expense)
      ensures v.Summary? ==> SignedValue(v.net) == SignedSum(transactions)
      ensures v.Summary? ==> (v.net.sign == '+' <==> v.tone == Calm)
      ensures v.Summary? ==> v.net == NetBalanceText(SignedSum(transactions))
      ensures v.Summary? ==> (v.tone == Calm <==> SignedSum(transactions) >= 0.0)
      ensures v.Summary? ==> (v.charts <==> transactions != []) && (v.list <==> transactions != [])
                             && (v.emptyState <==> transactions == []) && (v.encouragement.Some? <==> transactions != [])
      ensures v.Summary? && v.encouragement.Some? ==> (v.encouragement.value == PositiveMessage <==> v.tone == Calm)
    {
      if loading then Spinner
      else
        var balance := Balance(transactions);
        var has := |transactions| > 0;
        NetBalanceRoundTrip(balance);
        Summary(TypeTotal(transactions, Income), TypeTotal(transactions, Expense), NetBalanceText(balance), ToneOf(balance),
                has, has, !has, if has then Some(Encouragement(balance)) else None)
    }
  }
}
