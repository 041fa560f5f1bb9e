/**
 * `MonthlyTrend` of components/charts.tsx: records are bucketed by a
 * `YYYY-MM` key into income and expense sums, the keys are sorted
 * ascending, the last six months are kept, and each month is drawn as two
 * bars scaled against the largest value shown.
 */
module MonthlyTrend {
  import opened Types
  import opened Text
  import opened Ledger
  import opened Grouping
  import SpendingChart

  /** `Date.getMonth()`: 0 for January to 11 for December. */
  type MonthIndex = m: int | 0 <= m < 12

  /** The local calendar year and month of a record's timestamp. */
  datatype LocalDate = LocalDate(year: int, monthIndex: MonthIndex)

  /** What the accumulator holds for one month. */
  datatype MonthTotals = MonthTotals(income: real, expense: real)

  /** One entry of `Object.entries(grouped)`. */
  datatype MonthEntry = MonthEntry(month: string, totals: MonthTotals)

  /** One element of the component's data: `{ month, income, expense, net }`. */
  datatype MonthRow = MonthRow(month: string, income: real, expense: real, net: real)

  /** How many months the chart keeps (`.slice(-6)`). */
  const MaxMonths: nat := 6

  /** `` `${getFullYear()}-${String(getMonth() + 1).padStart(2, '0')}` ``. */
  function MonthKey(d: LocalDate): (r: string)
    ensures |r| >= 4 && r[|r| - 3] == '-' && r[|r| - 2..] == Pad2(d.monthIndex + 1)
  {
    IntToString(d.year) + "-" + Pad2(d.monthIndex + 1)
  }

  /** The month key of a record; `localDate` stands for `new Date(created_at)` read in local time. */
  function KeyOf(t: Transaction, localDate: string -> LocalDate): (r: string)
    ensures |r| >= 4 && r[|r| - 2..] == Pad2(localDate(t.createdAt).monthIndex + 1)
  {
    MonthKey(localDate(t.createdAt))
  }

  function MonthKeys(ts: seq<Transaction>, localDate: string -> LocalDate): seq<string> {
    seq(|ts|, i requires 0 <= i < |ts| => KeyOf(ts[i], localDate))
  }

  /** What the accumulator holds for `key` after folding all of `ts`: income and everything else. */
  function MonthSums(ts: seq<Transaction>, localDate: string -> LocalDate, key: string): MonthTotals {
    if ts == [] then MonthTotals(0.0, 0.0)
    else
      var t := ts[|ts| - 1];
      var m := MonthSums(ts[..|ts| - 1], localDate, key);
      if KeyOf(t, localDate) != key then m
      else if t.kind == Income then MonthTotals(m.income + t.amount, m.expense)
      else MonthTotals(m.income, m.expense + t.amount)
  }

  /** The entries for keys `ks`, each carrying its month's sums. */
  function EntriesFor(ks: seq<string>, ts: seq<Transaction>, localDate: string -> LocalDate): (r: seq<MonthEntry>)
    ensures |r| == |ks|
    ensures forall i :: 0 <= i < |ks| ==> r[i] == MonthEntry(ks[i], MonthSums(ts, localDate, ks[i]))
  {
    if ks == [] then []
    else
      var k := ks[|ks| - 1];
      EntriesFor(ks[..|ks| - 1], ts, localDate) + [MonthEntry(k, MonthSums(ts, localDate, k))]
  }

  /** `Object.entries(grouped)`: one entry per month, in first-seen order. */
  function MonthGrouped(ts: seq<Transaction>, localDate: string -> LocalDate): seq<MonthEntry> {
    EntriesFor(FirstSeen(MonthKeys(ts, localDate)), ts, localDate)
  }

  /** Neighbouring months are in strictly increasing key order. */
  predicate Ascending(es: seq<MonthEntry>) {
    forall i :: 0 < i < |es| ==> LexLess(es[i - 1].month, es[i].month)
  }

  predicate DistinctMonths(es: seq<MonthEntry>) {
    forall i, j :: 0 <= i < j < |es| ==> es[i].month != es[j].month
  }

  /** One step of the sort by `a[0].localeCompare(b[0])`. */
  function InsertAsc(e: MonthEntry, s: seq<MonthEntry>): (r: seq<MonthEntry>)
    ensures |r| == |s| + 1
    ensures multiset(r) == multiset(s) + multiset{e}
    ensures r[0] == e || (s != [] && r[0] == s[0])
  {
    if s == [] || LexLess(e.month, s[0].month) then [e] + s
    else
      assert s == [s[0]] + s[1..];
      [s[0]] + InsertAsc(e, s[1..])
  }

  /** `.sort((a, b) => a[0].localeCompare(b[0]))`. */
  function SortAsc(es: seq<MonthEntry>): (r: seq<MonthEntry>)
    ensures |r| == |es|
    ensures multiset(r) == multiset(es)
  {
    if es == [] then []
    else
      assert es == [es[0]] + es[1..];
      InsertAsc(es[0], SortAsc(es[1..]))
  }

  /** `.slice(-n)`: the last `n` entries, or all of them when there are fewer. */
  function LastN(es: seq<MonthEntry>, n: nat): (r: seq<MonthEntry>)
    ensures |r| == if |es| <= n then |es| else n
    ensures forall i :: 0 <= i < |r| ==> r[i] == es[|es| - |r| + i]
  {
    if |es| <= n then es else es[|es| - n..]
  }

  /** `.map(([month, data]) => ({ month, ...data, net: data.income - data.expense }))`. */
  function Rows(es: seq<MonthEntry>): (r: seq<MonthRow>)
    ensures |r| == |es|
    ensures forall i :: 0 <= i < |es| ==>
              r[i] == MonthRow(es[i].month, es[i].totals.income, es[i].totals.expense,
                               es[i].totals.income - es[i].totals.expense)
  {
    seq(|es|, i requires 0 <= i < |es| =>
      MonthRow(es[i].month, es[i].totals.income, es[i].totals.expense, es[i].totals.income - es[i].totals.expense))
  }

  /** The data the chart draws. */
  function TrendSpec(ts: seq<Transaction>, localDate: string -> LocalDate): seq<MonthRow> {
    Rows(LastN(SortAsc(MonthGrouped(ts, localDate)), MaxMonths))
  }

  // ---------------------------------------------------------------------
  // The imperative grouping
  // ---------------------------------------------------------------------

  lemma MonthSumsAppend(ts: seq<Transaction>, t: Transaction, localDate: string -> LocalDate, key: string)
    ensures MonthSums(ts + [t], localDate, key) ==
              var m := MonthSums(ts, localDate, key);
              if KeyOf(t, localDate) != key then m
              else if t.kind == Income then MonthTotals(m.income + t.amount, m.expense)
              else MonthTotals(m.income, m.expense + t.amount)
  {
    assert (ts + [t])[..|ts|] == ts;
  }

  lemma MonthSumsAbsent(ts: seq<Transaction>, localDate: string -> LocalDate, key: string)
    requires key !in MonthKeys(ts, localDate)
    ensures MonthSums(ts, localDate, key) == MonthTotals(0.0, 0.0)
  {
    if ts != [] {
      var init := ts[..|ts| - 1];
      assert MonthKeys(ts, localDate) == MonthKeys(init, localDate) + [KeyOf(ts[|ts| - 1], localDate)];
      MonthSumsAbsent(init, localDate, key);
    }
  }

  /** The new value of `acc[monthKey]` after folding record `t` into `before`. */
  function Folded(before: MonthTotals, t: Transaction): MonthTotals {
    if t.kind == Income then MonthTotals(before.income + t.amount, before.expense)
    else MonthTotals(before.income, before.expense + t.amount)
  }

  /** `acc` holds the month sums of the first `i` records. */
  ghost predicate SumsHeld(acc: map<string, MonthTotals>, ts: seq<Transaction>, i: nat, localDate: string -> LocalDate)
    requires i <= |ts|
  {
    forall k :: k in acc ==> acc[k] == MonthSums(ts[..i], localDate, k)
  }

  /** The keys of `acc` are exactly the keys listed in `order`. */
  ghost predicate KeysHeld(acc: map<string, MonthTotals>, order: seq<string>) {
    forall k :: k in acc <==> k in order
  }

  /** Record `ts[i]` adds its month to the first-seen order unless the month is already there. */
  lemma MonthOrderStep(ts: seq<Transaction>, i: nat, localDate: string -> LocalDate)
    requires i < |ts|
    ensures var order := FirstSeen(MonthKeys(ts[..i], localDate));
      FirstSeen(MonthKeys(ts[..i + 1], localDate)) ==
        if KeyOf(ts[i], localDate) in order then order else order + [KeyOf(ts[i], localDate)]
  {
    assert ts[..i + 1] == ts[..i] + [ts[i]];
    assert MonthKeys(ts[..i] + [ts[i]], localDate) == MonthKeys(ts[..i], localDate) + [KeyOf(ts[i], localDate)];
    FirstSeenAppend(MonthKeys(ts[..i], localDate), KeyOf(ts[i], localDate));
  }

  /** Folding record `ts[i]` into `before` keeps the accumulator equal to the month sums. */
  lemma MonthSumsStep(ts: seq<Transaction>, i: nat, localDate: string -> LocalDate,
                      before: map<string, MonthTotals>, start: MonthTotals)
    requires i < |ts|
    requires KeysHeld(before, FirstSeen(MonthKeys(ts[..i], localDate)))
    requires SumsHeld(before, ts, i, localDate)
    requires start == if KeyOf(ts[i], localDate) in before then before[KeyOf(ts[i], localDate)] else MonthTotals(0.0, 0.0)
    ensures SumsHeld(before[KeyOf(ts[i], localDate) := Folded(start, ts[i])], ts, i + 1, localDate)
  {
    var done, t := ts[..i], ts[i];
    var key := KeyOf(t, localDate);
    assert ts[..i + 1] == done + [t];
    if key !in before {
      FirstSeenKeys(MonthKeys(done, localDate));
      MonthSumsAbsent(done, localDate, key);
    }
    var after := before[key := Folded(start, t)];
    forall k | k in after ensures after[k] == MonthSums(done + [t], localDate, k) {
      MonthSumsAppend(done, t, localDate, k);
    }
  }

  /**
   * The `reduce` callback for record `ts[i]`: a month's entry is created
   * with zero sums on its first record; an income record adds to `income`,
   * any other to `expense`.
   */
  method FoldRecord(ts: seq<Transaction>, i: nat, localDate: string -> LocalDate,
                    acc: map<string, MonthTotals>, order: seq<string>)
    returns (acc': map<string, MonthTotals>, order': seq<string>)
    requires i < |ts|
    requires order == FirstSeen(MonthKeys(ts[..i], localDate))
    requires KeysHeld(acc, order) && SumsHeld(acc, ts, i, localDate)
    ensures order' == FirstSeen(MonthKeys(ts[..i + 1], localDate))
    ensures KeysHeld(acc', order') && SumsHeld(acc', ts, i + 1, localDate)
  {
    var t := ts[i];
    var d := localDate(t.createdAt);
    var monthKey := MonthKey(d);
    var isNew := monthKey !in acc;
    var current := if isNew then MonthTotals(0.0, 0.0) else acc[monthKey];
    var next := if t.kind == Income then MonthTotals(current.income + t.amount, current.expense)
                else MonthTotals(current.income, current.expense + t.amount);
    assert monthKey == KeyOf(ts[i], localDate) && next == Folded(current, ts[i]);
    MonthOrderStep(ts, i, localDate);
    MonthSumsStep(ts, i, localDate, acc, current);
    acc' := acc[monthKey := next];
    order' := if isNew then order + [monthKey] else order;
  }

  /** The `reduce` into `acc`, with the first-seen order that `Object.entries` reports. */
  method AccumulateMonths(ts: seq<Transaction>, localDate: string -> LocalDate)
    returns (acc: map<string, MonthTotals>, order: seq<string>)
    ensures order == FirstSeen(MonthKeys(ts, localDate))
    ensures forall k :: k in acc <==> k in order
    ensures forall k :: k in acc ==> acc[k] == MonthSums(ts, localDate, k)
  {
    acc, order := map[], [];
    var i := 0;
    while i < |ts|
      invariant 0 <= i <= |ts|
      invariant order == FirstSeen(MonthKeys(ts[..i], localDate))
      invariant KeysHeld(acc, order) && SumsHeld(acc, ts, i, localDate)
    {
      acc, order := FoldRecord(ts, i, localDate, acc, order);
      i := i + 1;
    }
    PrefixAll(ts);
  }

  /** The `useMemo` body: group, list the entries, sort, keep the last six, add `net`. */
  method MonthlyData(ts: seq<Transaction>, localDate: string -> LocalDate) returns (data: seq<MonthRow>)
    ensures data == TrendSpec(ts, localDate)
  {
    var acc, order := AccumulateMonths(ts, localDate);
    var entries: seq<MonthEntry> := [];
    var j := 0;
    while j < |order|
      invariant 0 <= j <= |order|
      invariant entries == EntriesFor(order[..j], ts, localDate)
    {
      assert order[..j + 1][..j] == order[..j];
      entries := entries + [MonthEntry(order[j], acc[order[j]])];
      j := j + 1;
    }
    assert order[..j] == order;
    data := Rows(LastN(SortAsc(entries), MaxMonths));
  }

  // ---------------------------------------------------------------------
  // Sorting by month key
  // ---------------------------------------------------------------------

  lemma {:induction false} InsertAscAscending(e: MonthEntry, s: seq<MonthEntry>)
    requires Ascending(s)
    requires forall x :: x in s ==> x.month != e.month
    ensures Ascending(InsertAsc(e, s))
    decreases |s|
  {
    if s != [] && !LexLess(e.month, s[0].month) {
      InsertAscAscending(e, s[1..]);
      LexLessTotal(e.month, s[0].month);
      var r := InsertAsc(e, s[1..]);
      assert r != [] ==> LexLess(s[0].month, r[0].month);
      assert InsertAsc(e, s) == [s[0]] + r;
    }
  }

  lemma {:induction false} SortAscAscending(es: seq<MonthEntry>)
    requires DistinctMonths(es)
    ensures Ascending(SortAsc(es))
    decreases |es|
  {
    if es != [] {
      var rest := es[1..];
      SortAscAscending(rest);
      forall x | x in SortAsc(rest) ensures x.month != es[0].month {
        assert x in multiset(SortAsc(rest));
        var j :| 0 <= j < |rest| && rest[j] == x;
        assert es[j + 1] == x;
      }
      InsertAscAscending(es[0], SortAsc(rest));
    }
  }

  /** Every earlier entry has a smaller key than every later one. */
  predicate KeysAscending(es: seq<MonthEntry>) {
    forall i, j :: 0 <= i < j < |es| ==> LexLess(es[i].month, es[j].month)
  }

  /** Neighbour order extends to every pair. */
  lemma {:induction false} AscendingPairwise(es: seq<MonthEntry>)
    requires Ascending(es)
    ensures KeysAscending(es)
    decreases |es|
  {
    if es != [] {
      var init := es[..|es| - 1];
      AscendingPairwise(init);
      var last := |es| - 1;
      forall i | 0 <= i < last - 1 ensures LexLess(es[i].month, es[last].month) {
        assert init[i] == es[i] && init[last - 1] == es[last - 1];
        LexLessTransitive(es[i].month, es[last - 1].month, es[last].month);
      }
    }
  }

  lemma MonthGroupedDistinct(ts: seq<Transaction>, localDate: string -> LocalDate)
    ensures DistinctMonths(MonthGrouped(ts, localDate))
  {
    FirstSeenKeys(MonthKeys(ts, localDate));
  }

  /** An entry of the sorted, cut list is an entry of the grouping. */
  lemma TrendEntryGrouped(ts: seq<Transaction>, localDate: string -> LocalDate, i: nat)
    requires i < |LastN(SortAsc(MonthGrouped(ts, localDate)), MaxMonths)|
    ensures var e := LastN(SortAsc(MonthGrouped(ts, localDate)), MaxMonths)[i];
            e.month in MonthKeys(ts, localDate) && e.totals == MonthSums(ts, localDate, e.month)
  {
    var g := MonthGrouped(ts, localDate);
    var sorted := SortAsc(g);
    var e := LastN(sorted, MaxMonths)[i];
    assert e == sorted[|sorted| - |LastN(sorted, MaxMonths)| + i];
    assert e in multiset(sorted);
    var k :| 0 <= k < |g| && g[k] == e;
    FirstSeenKeys(MonthKeys(ts, localDate));
    assert e.month == FirstSeen(MonthKeys(ts, localDate))[k];
  }

  // ---------------------------------------------------------------------
  // What the chart's data promises
  // ---------------------------------------------------------------------

  /** At most six rows, one per month that has records (all of them when there are six or fewer). */
  lemma TrendLength(ts: seq<Transaction>, localDate: string -> LocalDate)
    ensures var n := |FirstSeen(MonthKeys(ts, localDate))|;
            |TrendSpec(ts, localDate)| == if n <= MaxMonths then n else MaxMonths
  {
  }

  /** The month of row `i` is that of the `i`-th kept entry. */
  lemma RowMonth(es: seq<MonthEntry>, n: nat, i: nat)
    requires i < |LastN(es, n)|
    ensures Rows(LastN(es, n))[i].month == es[|es| - |LastN(es, n)| + i].month
  {
  }

  /** Keeping the last rows and adding `net` keeps the keys in order. */
  lemma {:induction false} RowsKeepOrder(es: seq<MonthEntry>, n: nat)
    requires KeysAscending(es)
    ensures var r := Rows(LastN(es, n));
            forall i, j :: 0 <= i < j < |r| ==> LexLess(r[i].month, r[j].month)
  {
    var r := Rows(LastN(es, n));
    var off := |es| - |r|;
    forall i, j | 0 <= i < j < |r| ensures LexLess(r[i].month, r[j].month) {
      RowMonth(es, n, i);
      RowMonth(es, n, j);
      assert LexLess(es[off + i].month, es[off + j].month);
    }
  }

  /** The rows are in strictly increasing key order. */
  lemma {:induction false} TrendAscending(ts: seq<Transaction>, localDate: string -> LocalDate)
    ensures var r := TrendSpec(ts, localDate);
            forall i, j :: 0 <= i < j < |r| ==> LexLess(r[i].month, r[j].month)
  {
    SortedPairwise(ts, localDate);
    RowsKeepOrder(SortAsc(MonthGrouped(ts, localDate)), MaxMonths);
  }

  /** Each row carries its month's income and expense sums, and `net` is their difference. */
  lemma TrendValues(ts: seq<Transaction>, localDate: string -> LocalDate, i: nat)
    requires i < |TrendSpec(ts, localDate)|
    ensures var row := TrendSpec(ts, localDate)[i];
            row.month in MonthKeys(ts, localDate)
            && row.income == MonthSums(ts, localDate, row.month).income
            && row.expense == MonthSums(ts, localDate, row.month).expense
            && row.net == row.income - row.expense
  {
    TrendEntryGrouped(ts, localDate, i);
  }

  /** Where the entry of a month with records sits in the sorted list. */
  lemma SortedPosition(ts: seq<Transaction>, localDate: string -> LocalDate, k: string) returns (q: nat)
    requires k in MonthKeys(ts, localDate)
    ensures q < |SortAsc(MonthGrouped(ts, localDate))| && SortAsc(MonthGrouped(ts, localDate))[q].month == k
  {
    var g := MonthGrouped(ts, localDate);
    FirstSeenKeys(MonthKeys(ts, localDate));
    var p :| 0 <= p < |g| && g[p].month == k;
    assert g[p] in multiset(SortAsc(g));
    q :| 0 <= q < |SortAsc(g)| && SortAsc(g)[q] == g[p];
  }

  /** The sorted entries are in strictly increasing key order. */
  lemma SortedPairwise(ts: seq<Transaction>, localDate: string -> LocalDate)
    ensures KeysAscending(SortAsc(MonthGrouped(ts, localDate)))
  {
    MonthGroupedDistinct(ts, localDate);
    SortAscAscending(MonthGrouped(ts, localDate));
    AscendingPairwise(SortAsc(MonthGrouped(ts, localDate)));
  }

  /** In key order, an entry whose month is not among the last rows precedes all of them. */
  lemma DroppedBeforeShown(es: seq<MonthEntry>, n: nat, q: nat)
    requires KeysAscending(es) && q < |es|
    requires forall row :: row in Rows(LastN(es, n)) ==> row.month != es[q].month
    ensures forall row :: row in Rows(LastN(es, n)) ==> LexLess(es[q].month, row.month)
  {
    var r := Rows(LastN(es, n));
    var off := |es| - |r|;
    assert q < off;
    forall row | row in r ensures LexLess(es[q].month, row.month) {
      var i :| 0 <= i < |r| && r[i] == row;
      RowMonth(es, n, i);
    }
  }

  /** A month with records that is not shown sorts before every month that is. */
  lemma TrendKeepsLatest(ts: seq<Transaction>, localDate: string -> LocalDate, k: string)
    requires k in MonthKeys(ts, localDate)
    requires forall row :: row in TrendSpec(ts, localDate) ==> row.month != k
    ensures forall row :: row in TrendSpec(ts, localDate) ==> LexLess(k, row.month)
  {
    var q := SortedPosition(ts, localDate, k);
    SortedPairwise(ts, localDate);
    DroppedBeforeShown(SortAsc(MonthGrouped(ts, localDate)), MaxMonths, q);
  }

  /** The records of one month. */
  function InMonth(ts: seq<Transaction>, localDate: string -> LocalDate, key: string): seq<Transaction> {
    if ts == [] then []
    else
      var last := ts[|ts| - 1];
      var rest := InMonth(ts[..|ts| - 1], localDate, key);
      if KeyOf(last, localDate) == key then rest + [last] else rest
  }

  /** A month's records are exactly the records whose key is that month. */
  lemma {:induction false} InMonthMembers(ts: seq<Transaction>, localDate: string -> LocalDate, key: string)
    ensures forall t :: t in InMonth(ts, localDate, key) <==> t in ts && KeyOf(t, localDate) == key
  {
    if ts != [] {
      var init, last := ts[..|ts| - 1], ts[|ts| - 1];
      InMonthMembers(init, localDate, key);
      assert ts == init + [last];
    }
  }

  /** A month's sums are the income and expense totals of that month's records. */
  lemma {:induction false} MonthSumsByType(ts: seq<Transaction>, localDate: string -> LocalDate, key: string)
    ensures MonthSums(ts, localDate, key)
            == MonthTotals(TypeTotal(InMonth(ts, localDate, key), Income),
                           TypeTotal(InMonth(ts, localDate, key), Expense))
  {
    if ts != [] {
      var init, last := ts[..|ts| - 1], ts[|ts| - 1];
      MonthSumsByType(init, localDate, key);
      var m := InMonth(init, localDate, key);
      if KeyOf(last, localDate) == key {
        assert InMonth(ts, localDate, key) == m + [last];
        TypeTotalAppend(m, last, Income);
        TypeTotalAppend(m, last, Expense);
      } else {
        assert InMonth(ts, localDate, key) == m;
      }
    }
  }

  // ---------------------------------------------------------------------
  // Month keys
  // ---------------------------------------------------------------------

  lemma KeySplit(y: string, m: string)
    requires AllDigits(y) && AllDigits(m)
    ensures IndexOf(y + "-" + m, '-') == |y|
    ensures SecondPiece(y + "-" + m, '-') == m
  {
    var s := y + "-" + m;
    assert s[|y|] == '-';
    assert s[|y| + 1..] == m;
  }

  /** `item.month.split('-')[1]`: the label under a column is the two-digit month number. */
  lemma MonthLabel(d: LocalDate)
    requires d.year >= 0
    ensures SecondPiece(MonthKey(d), '-') == Pad2(d.monthIndex + 1)
  {
    KeySplit(NatToString(d.year), Pad2(d.monthIndex + 1));
  }

  /** A four-digit year's key is its four digits, a dash, and the two month digits. */
  lemma MonthKeyParts(d: LocalDate)
    requires 1000 <= d.year <= 9999
    ensures MonthKey(d) == NatToString(d.year) + ("-" + Pad2(d.monthIndex + 1))
    ensures |NatToString(d.year)| == 4 && DigitsValue(NatToString(d.year)) == d.year
    ensures DigitsValue(Pad2(d.monthIndex + 1)) == d.monthIndex + 1
  {
    NatToStringFourDigits(d.year);
    NatToStringValue(d.year);
    Pad2Value(d.monthIndex + 1);
  }

  /** A shared leading dash does not change the order. */
  lemma DashedLess(a: string, b: string)
    ensures LexLess("-" + a, "-" + b) <==> LexLess(a, b)
  {
    LexLessSplit("-", a, "-", b);
    LexLessIrreflexive("-");
  }

  /**
   * For four-digit years the key is `YYYY-MM` and sorting keys as strings
   * sorts months chronologically.
   */
  lemma MonthKeyOrder(d1: LocalDate, d2: LocalDate)
    requires 1000 <= d1.year <= 9999 && 1000 <= d2.year <= 9999
    ensures |MonthKey(d1)| == 7 && MonthKey(d1)[4] == '-'
    ensures LexLess(MonthKey(d1), MonthKey(d2)) <==>
              d1.year < d2.year || (d1.year == d2.year && d1.monthIndex < d2.monthIndex)
  {
    var y1, y2 := NatToString(d1.year), NatToString(d2.year);
    var m1, m2 := Pad2(d1.monthIndex + 1), Pad2(d2.monthIndex + 1);
    MonthKeyParts(d1);
    MonthKeyParts(d2);
    LexLessSplit(y1, "-" + m1, y2, "-" + m2);
    DashedLess(m1, m2);
    DigitOrder(y1, y2);
    DigitOrder(m1, m2);
  }

  // ---------------------------------------------------------------------
  // The columns
  // ---------------------------------------------------------------------

  /** One month's column: two bars whose heights are percentages of the largest value. */
  datatype Column = Column(month: string, caption: string, incomeHeight: real, expenseHeight: real)

  datatype TrendDisplay = NoTransactions(message: string) | Columns(columns: seq<Column>)

  /** `Math.max(...data.map(d => Math.max(d.income, d.expense)), 1)`. */
  function MaxTrendValue(data: seq<MonthRow>): (m: real)
    ensures m >= 1.0
    ensures forall i :: 0 <= i < |data| ==> data[i].income <= m && data[i].expense <= m
    ensures m == 1.0 || exists i :: 0 <= i < |data| && (data[i].income == m || data[i].expense == m)
  {
    if data == [] then 1.0
    else
      var rest := MaxTrendValue(data[1..]);
      assert forall i :: 1 <= i < |data| ==> data[i] == data[1..][i - 1];
      var top := if data[0].income >= data[0].expense then data[0].income else data[0].expense;
      if top >= rest then top else rest
  }

  function ColumnOf(row: MonthRow, maxValue: real): (c: Column)
    requires maxValue >= 1.0
    ensures c.month == row.month && c.caption == SecondPiece(row.month, '-')
    ensures 0.0 <= row.income <= maxValue ==> 0.0 <= c.incomeHeight <= 100.0
    ensures 0.0 <= row.expense <= maxValue ==> 0.0 <= c.expenseHeight <= 100.0
    ensures (row.income == maxValue ==> c.incomeHeight == 100.0) && (row.expense == maxValue ==> c.expenseHeight == 100.0)
  {
    SpendingChart.WholeShare(maxValue);
    HeightBounded(row.income, maxValue);
    HeightBounded(row.expense, maxValue);
    Column(row.month, SecondPiece(row.month, '-'),
           SpendingChart.Share(row.income, maxValue), SpendingChart.Share(row.expense, maxValue))
  }

  /** A value between 0 and the maximum gives a height between 0 and 100. */
  lemma HeightBounded(value: real, maxValue: real)
    requires maxValue >= 1.0
    ensures 0.0 <= value <= maxValue ==> 0.0 <= SpendingChart.Share(value, maxValue) <= 100.0
  {
    if 0.0 <= value <= maxValue {
      SpendingChart.WidthBounded(value, maxValue);
    }
  }

  lemma ColumnsBounded(data: seq<MonthRow>, m: real)
    requires m == MaxTrendValue(data)
    ensures forall i :: 0 <= i < |data| && data[i].income >= 0.0 && data[i].expense >= 0.0 ==>
              0.0 <= ColumnOf(data[i], m).incomeHeight <= 100.0 && 0.0 <= ColumnOf(data[i], m).expenseHeight <= 100.0
  {
    forall i | 0 <= i < |data| && data[i].income >= 0.0 && data[i].expense >= 0.0
      ensures 0.0 <= ColumnOf(data[i], m).incomeHeight <= 100.0 && 0.0 <= ColumnOf(data[i], m).expenseHeight <= 100.0
    {
      SpendingChart.WidthBounded(data[i].income, m);
      SpendingChart.WidthBounded(data[i].expense, m);
    }
  }

  lemma TallestColumn(data: seq<MonthRow>, m: real)
    requires m == MaxTrendValue(data)
    ensures m > 1.0 ==>
              (exists i :: 0 <= i < |data| &&
                 (ColumnOf(data[i], m).incomeHeight == 100.0 || ColumnOf(data[i], m).expenseHeight == 100.0))
  {
    if m > 1.0 {
      var i :| 0 <= i < |data| && (data[i].income == m || data[i].expense == m);
      SpendingChart.WholeShare(m);
      assert ColumnOf(data[i], m).incomeHeight == 100.0 || ColumnOf(data[i], m).expenseHeight == 100.0;
    }
  }

  /**
   * What the component renders: the empty message when there is no month,
   * otherwise one column per month, labelled with the part of the key after
   * the first `-`.
   */
  function TrendView(data: seq<MonthRow>): (v: TrendDisplay)
    ensures v.NoTransactions? <==> data == []
    ensures v.NoTransactions? ==> v.message == "No transactions yet"
    ensures v.Columns? ==> |v.columns| == |data| && forall i :: 0 <= i < |data| ==>
              v.columns[i].month == data[i].month && v.columns[i].caption == SecondPiece(data[i].month, '-')
    ensures v.Columns? ==> forall i :: 0 <= i < |data| ==>
              v.columns[i].incomeHeight == SpendingChart.Share(data[i].income, MaxTrendValue(data)) &&
              v.columns[i].expenseHeight == SpendingChart.Share(data[i].expense, MaxTrendValue(data))
    ensures v.Columns? && (forall i :: 0 <= i < |data| ==> data[i].income >= 0.0 && data[i].expense >= 0.0) ==>
              forall i :: 0 <= i < |data| ==>
                0.0 <= v.columns[i].incomeHeight <= 100.0 && 0.0 <= v.columns[i].expenseHeight <= 100.0
    ensures v.Columns? && MaxTrendValue(data) > 1.0 ==>
              exists i :: 0 <= i < |data| && (v.columns[i].incomeHeight == 100.0 || v.columns[i].expenseHeight == 100.0)
  {
    if data == [] then NoTransactions("No transactions yet")
    else
      var m := MaxTrendValue(data);
      var cols := seq(|data|, i requires 0 <= i < |data| => ColumnOf(data[i], m));
      ColumnsBounded(data, m);
      TallestColumn(data, m);
      Columns(cols)
  }

  /** With non-negative amounts every month's sums are non-negative. */
  lemma MonthSumsNonNegative(ts: seq<Transaction>, localDate: string -> LocalDate, key: string)
    requires NonNegativeAmounts(ts)
    ensures MonthSums(ts, localDate, key).income >= 0.0 && MonthSums(ts, localDate, key).expense >= 0.0
  {
    MonthSumsByType(ts, localDate, key);
    var m := InMonth(ts, localDate, key);
    InMonthMembers(ts, localDate, key);
    forall i | 0 <= i < |m| ensures m[i].amount >= 0.0 {
      assert m[i] in ts;
    }
    TypeTotalNonNegative(m, Income);
    TypeTotalNonNegative(m, Expense);
  }

  /** With non-negative amounts the drawn bars stay within the column. */
  lemma TrendHeightsBounded(ts: seq<Transaction>, localDate: string -> LocalDate)
    requires NonNegativeAmounts(ts)
    ensures var v := TrendView(TrendSpec(ts, localDate));
            v.Columns? ==> forall i :: 0 <= i < |v.columns| ==>
              0.0 <= v.columns[i].incomeHeight <= 100.0 && 0.0 <= v.columns[i].expenseHeight <= 100.0
  {
    var data := TrendSpec(ts, localDate);
    forall i | 0 <= i < |data| ensures data[i].income >= 0.0 && data[i].expense >= 0.0 {
      TrendValues(ts, localDate, i);
      MonthSumsNonNegative(ts, localDate, data[i].month);
    }
  }
}
