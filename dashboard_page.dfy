/**
 * The overview page of app/dashboard/page.tsx: it loads the signed-in
 * user, their profile and their records, then derives the income, expense,
 * balance and savings-rate cards, the greeting name, and which sections
 * are shown.
 */
module DashboardPage {
  import opened Wrappers
  import opened Types
  import opened Text
  import opened Ledger

  /** The fields of the auth user the page reads. */
  datatype AuthUser = AuthUser(id: string, email: Option<string>)

  /** The `users` row selected for the greeting: `{ full_name: string | null }`. */
  datatype Profile = Profile(fullName: Option<string>)

  // ---------------------------------------------------------------------
  // Savings rate
  // ---------------------------------------------------------------------

  /** `(part / whole) * 100`. */
  function Percent(part: real, whole: real): real
    requires whole != 0.0
  {
    part / whole * 100.0
  }

  /**
   * `Number(x.toFixed(1))` on an exact value: the nearest tenth, halves
   * rounded away from zero.
   */
  function Round1(x: real): (r: real)
    ensures x >= 0.0 ==> r >= 0.0
    ensures -0.05 <= r - x <= 0.05
    ensures (r * 10.0).Floor as real == r * 10.0
  {
    if x >= 0.0 then
      var n := (x * 10.0 + 0.5).Floor;
      WholeTenths(n);
      (n as real) / 10.0
    else
      var n := ((-x) * 10.0 + 0.5).Floor;
      WholeTenths(-n);
      -((n as real) / 10.0)
  }

  /** A whole number of tenths has no further digits. */
  lemma WholeTenths(n: int)
    ensures ((n as real / 10.0) * 10.0).Floor as real == (n as real / 10.0) * 10.0
  {
    assert (n as real / 10.0) * 10.0 == n as real;
  }

  /** Rounding to tenths keeps the order of non-negative values. */
  lemma Round1Monotone(x: real, y: real)
    requires 0.0 <= x <= y
    ensures Round1(x) <= Round1(y)
  {
    var a, b := x * 10.0 + 0.5, y * 10.0 + 0.5;
    assert a.Floor as real <= a <= b < b.Floor as real + 1.0;
    assert a.Floor <= b.Floor;
  }

  /** `savingsRate`: the rounded share of income kept, or 0 when there is no income. */
  function SavingsRate(income: real, expense: real): (r: real)
    ensures income <= 0.0 ==> r == 0.0
    ensures income > 0.0 ==> -0.05 <= r - Percent(income - expense, income) <= 0.05
    ensures (r * 10.0).Floor as real == r * 10.0
  {
    if income > 0.0 then Round1(Percent(income - expense, income)) else 0.0
  }

  /** With non-negative spending the rate is at most 100; with spending no larger than income it is at least 0. */
  lemma SavingsRateBounds(income: real, expense: real)
    requires income > 0.0
    ensures expense >= 0.0 ==> SavingsRate(income, expense) <= 100.0
    ensures expense <= income ==> SavingsRate(income, expense) >= 0.0
  {
    var p := Percent(income - expense, income);
    if expense >= 0.0 {
      assert (income - expense) / income <= 1.0;
      Round1Monotone(if p >= 0.0 then p else 0.0, 100.0);
    }
    if expense <= income {
      assert (income - expense) / income >= 0.0;
    }
  }

  const AmazingMessage: string := "Amazing savings rate! Keep up the excellent work!"
  const KeepGoingMessage: string := "Every rupee counts. Keep tracking to improve your savings!"

  /** The motivational text: `Number(savingsRate) >= 20`. */
  function Motivation(rate: real): (m: string)
    ensures m == AmazingMessage <==> rate >= 20.0
    ensures m == KeepGoingMessage <==> rate < 20.0
  {
    if rate >= 20.0 then AmazingMessage else KeepGoingMessage
  }

  /** Because the rate is rounded first, the praise starts at 19.95% kept. */
  lemma PraiseThreshold(income: real, expense: real)
    requires income > 0.0
    ensures Motivation(SavingsRate(income, expense)) == AmazingMessage <==> Percent(income - expense, income) >= 19.95
  {
    var p := Percent(income - expense, income);
    if p >= 0.0 {
      assert SavingsRate(income, expense) == ((p * 10.0 + 0.5).Floor as real) / 10.0;
    } else {
      assert SavingsRate(income, expense) <= 0.0;
    }
  }

  // ---------------------------------------------------------------------
  // Greeting
  // ---------------------------------------------------------------------

  /** `profile?.full_name`, with a missing profile or null name read as empty. */
  function FullNameOf(profile: Option<Profile>): (s: string)
    ensures profile.None? ==> s == ""
    ensures profile.Some? ==> s == profile.value.fullName.GetOr("")
  {
    if profile.Some? && profile.value.fullName.Some? then profile.value.fullName.value else ""
  }

  /** `user?.email?.split('@')[0]`, with a missing user or email read as empty. */
  function EmailLocalPart(user: Option<AuthUser>): (s: string)
    ensures '@' !in s
  {
    if user.Some? && user.value.email.Some? then BeforeFirst(user.value.email.value, '@') else ""
  }

  /** `profile?.full_name || user?.email?.split('@')[0] || 'Friend'`. */
  function UserName(profile: Option<Profile>, user: Option<AuthUser>): (name: string)
    ensures name != []
    ensures FullNameOf(profile) != "" ==> name == FullNameOf(profile)
    ensures FullNameOf(profile) == "" ==> '@' !in name
    ensures FullNameOf(profile) == "" && user.Some? && user.value.email.Some? && IndexOf(user.value.email.value, '@') > 0 ==>
              name == user.value.email.value[..IndexOf(user.value.email.value, '@')]
    ensures FullNameOf(profile) == "" && EmailLocalPart(user) == "" ==> name == "Friend"
  {
    if FullNameOf(profile) != "" then FullNameOf(profile)
    else if EmailLocalPart(user) != "" then EmailLocalPart(user)
    else "Friend"
  }

  // ---------------------------------------------------------------------
  // The page
  // ---------------------------------------------------------------------

  /** What the page shows once loaded; `motivation` is present exactly when the card is. */
  datatype DashboardView =
    | Spinner
    | Overview(income: real, expense: real, balance: real, savingsRate: real, greeting: string,
               charts: bool, recentList: bool, emptyState: bool, motivation: Option<string>)

  /** How the loading effect ends: each step of `fetchData` may throw, or there may be no user. */
  datatype LoadOutcome =
    | GetUserThrew
    | NoUser
    | ProfileThrew(user: AuthUser)
    | RecordsThrew(user: AuthUser, profile: Option<Profile>)
    | Loaded(user: AuthUser, profile: Option<Profile>, data: Option<seq<Transaction>>)

  class DashboardState {
    var user: Option<AuthUser>
    var profile: Option<Profile>
    var transactions: seq<Transaction>
    var loading: bool

    constructor ()
      ensures user == None && profile == None && transactions == [] && loading
    {
      user := None;
      profile := None;
      transactions := [];
      loading := true;
    }

    /**
     * `fetchData`: the user, then the profile, then the records are stored
     * as each answer arrives; whatever happens, `loading` ends false.
     */
    method Load(outcome: LoadOutcome)
      modifies this
      ensures !loading
      ensures user == if outcome.GetUserThrew? || outcome.NoUser? then old(user) else Some(outcome.user)
      ensures profile == if outcome.RecordsThrew? || outcome.Loaded? then outcome.profile else old(profile)
      ensures transactions == if outcome.Loaded? then outcome.data.GetOr([]) else old(transactions)
    {
      match outcome {
        case GetUserThrew =>
        case NoUser =>
        case ProfileThrew(u) =>
          user := Some(u);
        case RecordsThrew(u, p) =>
          user := Some(u);
          profile := p;
        case Loaded(u, p, data) =>
          user := Some(u);
          profile := p;
          transactions := data.GetOr([]);
      }
      loading := false;
    }

    /** The spinner while loading; then the cards, with charts, list and motivation only when there are records. */
    function View(): (v: DashboardView)
      reads this
      ensures v.Spinner? <==> loading
      ensures v.Overview? ==> v.income == TypeTotal(transactions, Income) && v.expense == TypeTotal(transactions, Expense)
      ensures v.Overview? ==> v.balance == SignedSum(transactions)
      ensures v.Overview? ==> v.savingsRate == SavingsRate(v.income, v.expense)
      ensures v.Overview? ==> v.greeting == UserName(profile, user)
      ensures v.Overview? ==> (v.charts <==> transactions != []) && (v.recentList <==> transactions != [])
                              && (v.emptyState <==> transactions == []) && (v.motivation.Some? <==> transactions != [])
      ensures v.Overview? && v.motivation.Some? ==>
                (v.motivation.value == AmazingMessage <==> v.savingsRate >= 20.0)
    {
      if loading then Spinner
      else
        var income := TypeTotal(transactions, Income);
        var expense := TypeTotal(transactions, Expense);
        var rate := SavingsRate(income, expense);
        var has := |transactions| > 0;
        Overview(income, expense, Balance(transactions), rate, UserName(profile, user),
                 has, has, !has, if has then Some(Motivation(rate)) else None)
    }
  }
}
