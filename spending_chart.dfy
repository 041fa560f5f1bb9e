/**
 * `SpendingChart` of components/charts.tsx: the records of one type are
 * summed per category, the categories are sorted by total, largest first,
 * and the first six are drawn as bars with a share of the drawn total.
 */
module SpendingChart {
  import opened Types
  import opened Ledger
  import opened Grouping

  /** One drawn category: `{ name, value }`. */
  datatype Bucket = Bucket(name: string, value: real)

  /** How many categories the chart keeps (`.slice(0, 6)`). */
  const MaxBuckets: nat := 6

  /** The category a record is counted under: `t.category || 'Other'`. */
  function Label(t: Transaction): (r: string)
    ensures r != ""
    ensures t.category != "" ==> r == t.category
  {
    if t.category == "" then "Other" else t.category
  }

  function Labels(ts: seq<Transaction>): seq<string> {
    seq(|ts|, i requires 0 <= i < |ts| => Label(ts[i]))
  }

  /** What the accumulator holds for category `c` after folding all of `ts`. */
  function CategoryTotal(ts: seq<Transaction>, c: string): real {
    if ts == [] then 0.0
    else
      var t := ts[|ts| - 1];
      CategoryTotal(ts[..|ts| - 1], c) + (if Label(t) == c then t.amount else 0.0)
  }

  /** The entries for keys `ks`, each carrying its category total. */
  function BucketsFor(ks: seq<string>, ts: seq<Transaction>): (r: seq<Bucket>)
    ensures |r| == |ks|
    ensures forall i :: 0 <= i < |ks| ==> r[i] == Bucket(ks[i], CategoryTotal(ts, ks[i]))
  {
    if ks == [] then []
    else
      var k := ks[|ks| - 1];
      BucketsFor(ks[..|ks| - 1], ts) + [Bucket(k, CategoryTotal(ts, k))]
  }

  /** `Object.entries(grouped)`: one entry per category, in first-seen order. */
  function Grouped(ts: seq<Transaction>): seq<Bucket> {
    BucketsFor(FirstSeen(Labels(ts)), ts)
  }

  /** `data.reduce((sum, d) => sum + d.value, 0)`. */
  function BucketSum(bs: seq<Bucket>): real {
    if bs == [] then 0.0 else bs[0].value + BucketSum(bs[1..])
  }

  predicate NonIncreasing(bs: seq<Bucket>) {
    forall i, j :: 0 <= i < j < |bs| ==> bs[i].value >= bs[j].value
  }

  /** One step of the stable sort by `b[1] - a[1]`: `b` goes before the first entry it is not smaller than. */
  function InsertDesc(b: Bucket, s: seq<Bucket>): (r: seq<Bucket>)
    ensures |r| == |s| + 1
    ensures multiset(r) == multiset(s) + multiset{b}
    ensures r[0] == b || (s != [] && r[0] == s[0])
  {
    if s == [] || b.value >= s[0].value then [b] + s
    else
      assert s == [s[0]] + s[1..];
      [s[0]] + InsertDesc(b, s[1..])
  }

  lemma {:induction false} InsertDescSorted(b: Bucket, s: seq<Bucket>)
    requires NonIncreasing(s)
    ensures NonIncreasing(InsertDesc(b, s))
    decreases |s|
  {
    if s != [] && b.value < s[0].value {
      InsertDescSorted(b, s[1..]);
    }
  }

  /** `.sort((a, b) => b[1] - a[1])`, stable. */
  function SortDesc(bs: seq<Bucket>): (r: seq<Bucket>)
    ensures |r| == |bs|
    ensures multiset(r) == multiset(bs)
    ensures NonIncreasing(r)
  {
    if bs == [] then []
    else
      assert bs == [bs[0]] + bs[1..];
      InsertDescSorted(bs[0], SortDesc(bs[1..]));
      InsertDesc(bs[0], SortDesc(bs[1..]))
  }

  /** Sorting keeps exactly the entries it was given. */
  lemma SortDescMembers(bs: seq<Bucket>, x: Bucket)
    ensures x in SortDesc(bs) <==> x in bs
  {
    assert x in SortDesc(bs) <==> x in multiset(SortDesc(bs));
    assert x in bs <==> x in multiset(bs);
  }

  lemma {:induction false} InsertDescSum(b: Bucket, s: seq<Bucket>)
    ensures BucketSum(InsertDesc(b, s)) == b.value + BucketSum(s)
  {
    if !(s == [] || b.value >= s[0].value) {
      InsertDescSum(b, s[1..]);
    }
  }

  /** Sorting moves entries around and keeps their sum. */
  lemma {:induction false} SortDescSum(bs: seq<Bucket>)
    ensures BucketSum(SortDesc(bs)) == BucketSum(bs)
  {
    if bs != [] {
      SortDescSum(bs[1..]);
      InsertDescSum(bs[0], SortDesc(bs[1..]));
    }
  }

  /** `.slice(0, n)`. */
  function Top(bs: seq<Bucket>, n: nat): (r: seq<Bucket>)
    ensures |r| == if |bs| <= n then |bs| else n
    ensures forall i :: 0 <= i < |r| ==> r[i] == bs[i]
  {
    if |bs| <= n then bs else bs[..n]
  }

  /** The data the chart draws for the records of type `kind`. */
  function SpendingSpec(ts: seq<Transaction>, kind: TransactionType): seq<Bucket> {
    Top(SortDesc(Grouped(OfType(ts, kind))), MaxBuckets)
  }

  lemma CategoryTotalAppend(ts: seq<Transaction>, t: Transaction, c: string)
    ensures CategoryTotal(ts + [t], c) == CategoryTotal(ts, c) + (if Label(t) == c then t.amount else 0.0)
  {
    assert (ts + [t])[..|ts|] == ts;
  }

  /** `acc` holds the category totals of the first `i` records. */
  ghost predicate TotalsHeld(acc: map<string, real>, ts: seq<Transaction>, i: nat)
    requires i <= |ts|
  {
    forall k :: k in acc ==> acc[k] == CategoryTotal(ts[..i], k)
  }

  /** Folding record `ts[i]` into the accumulator keeps it equal to the category totals. */
  lemma GroupStep(ts: seq<Transaction>, i: nat, before: map<string, real>, prior: real)
    requires i < |ts|
    requires forall k :: k in before <==> k in FirstSeen(Labels(ts[..i]))
    requires TotalsHeld(before, ts, i)
    requires prior == if Label(ts[i]) in before then before[Label(ts[i])] else 0.0
    ensures FirstSeen(Labels(ts[..i + 1])) ==
              if Label(ts[i]) in before then FirstSeen(Labels(ts[..i])) else FirstSeen(Labels(ts[..i])) + [Label(ts[i])]
    ensures TotalsHeld(before[Label(ts[i]) := prior + ts[i].amount], ts, i + 1)
  {
    var after := before[Label(ts[i]) := prior + ts[i].amount];
    var done, t := ts[..i], ts[i];
    assert ts[..i + 1] == done + [t];
    assert Labels(done + [t]) == Labels(done) + [Label(t)];
    FirstSeenAppend(Labels(done), Label(t));
    if Label(t) !in before {
      FirstSeenKeys(Labels(done));
      CategoryTotalAbsent(done, Label(t));
    }
    forall k | k in after ensures after[k] == CategoryTotal(done + [t], k) {
      CategoryTotalAppend(done, t, k);
    }
  }

  /**
   * The `reduce` into `acc`: each record adds its amount to its category's
   * entry, creating the entry on the category's first appearance. `order`
   * is the insertion order of the keys, which `Object.entries` reports.
   */
  method Accumulate(filtered: seq<Transaction>) returns (acc: map<string, real>, order: seq<string>)
    ensures order == FirstSeen(Labels(filtered))
    ensures forall k :: k in acc <==> k in order
    ensures forall k :: k in acc ==> acc[k] == CategoryTotal(filtered, k)
  {
    acc, order := map[], [];
    var i := 0;
    while i < |filtered|
      invariant 0 <= i <= |filtered|
      invariant order == FirstSeen(Labels(filtered[..i]))
      invariant forall k :: k in acc <==> k in order
      invariant TotalsHeld(acc, filtered, i)
    {
      var t := filtered[i];
      var cat := Label(t);
      var isNew := cat !in acc;
      var prior := if cat in acc then acc[cat] else 0.0;
      GroupStep(filtered, i, acc, prior);
      acc := acc[cat := prior + t.amount];
      if isNew {
        order := order + [cat];
      }
      i := i + 1;
    }
    PrefixAll(filtered);
  }

  /** `Object.entries(acc)` followed by the grouping as a whole. */
  method GroupByCategory(filtered: seq<Transaction>) returns (entries: seq<Bucket>)
    ensures entries == Grouped(filtered)
  {
    var acc, order := Accumulate(filtered);
    entries := [];
    var j := 0;
    while j < |order|
      invariant 0 <= j <= |order|
      invariant entries == BucketsFor(order[..j], filtered)
    {
      assert order[..j + 1][..j] == order[..j];
      entries := entries + [Bucket(order[j], acc[order[j]])];
      j := j + 1;
    }
    assert order[..j] == order;
  }

  /** The `useMemo` body: filter, group, sort and keep six. */
  method SpendingData(ts: seq<Transaction>, kind: TransactionType) returns (data: seq<Bucket>)
    ensures data == SpendingSpec(ts, kind)
  {
    var filtered := OfType(ts, kind);
    var entries := GroupByCategory(filtered);
    data := Top(SortDesc(entries), MaxBuckets);
  }

  // ---------------------------------------------------------------------
  // What the data promises
  // ---------------------------------------------------------------------

  /** At most six categories, largest first; all six are kept whenever there are six or more. */
  lemma SpendingShape(ts: seq<Transaction>, kind: TransactionType)
    ensures |SpendingSpec(ts, kind)| == if |FirstSeen(Labels(OfType(ts, kind)))| <= MaxBuckets
                                        then |FirstSeen(Labels(OfType(ts, kind)))| else MaxBuckets
    ensures NonIncreasing(SpendingSpec(ts, kind))
  {
  }

  /** Each drawn category carries exactly the sum of its records of the requested type. */
  lemma SpendingValues(ts: seq<Transaction>, kind: TransactionType, b: Bucket)
    requires b in SpendingSpec(ts, kind)
    ensures b.name in Labels(OfType(ts, kind))
    ensures b.value == CategoryTotal(OfType(ts, kind), b.name)
  {
    var g := Grouped(OfType(ts, kind));
    var i :| 0 <= i < |SpendingSpec(ts, kind)| && SpendingSpec(ts, kind)[i] == b;
    assert SortDesc(g)[i] == b;
    SortDescMembers(g, b);
    var k :| 0 <= k < |g| && g[k] == b;
    FirstSeenKeys(Labels(OfType(ts, kind)));
    assert b.name == FirstSeen(Labels(OfType(ts, kind)))[k];
  }

  /** Every category of the requested type appears in the grouped entries. */
  lemma EveryCategoryGrouped(ts: seq<Transaction>, c: string)
    requires c in Labels(ts)
    ensures Bucket(c, CategoryTotal(ts, c)) in Grouped(ts)
  {
    var ks := FirstSeen(Labels(ts));
    FirstSeenKeys(Labels(ts));
    var i :| 0 <= i < |ks| && ks[i] == c;
    assert Grouped(ts)[i] == Bucket(c, CategoryTotal(ts, c));
  }

  /** A category that was cut off has a total no larger than any drawn one. */
  lemma DroppedNotLarger(ts: seq<Transaction>, kind: TransactionType, c: string)
    requires c in Labels(OfType(ts, kind))
    requires forall b :: b in SpendingSpec(ts, kind) ==> b.name != c
    ensures |SpendingSpec(ts, kind)| == MaxBuckets
    ensures forall b :: b in SpendingSpec(ts, kind) ==> CategoryTotal(OfType(ts, kind), c) <= b.value
  {
    var f := OfType(ts, kind);
    var s := SortDesc(Grouped(f));
    var d := Bucket(c, CategoryTotal(f, c));
    EveryCategoryGrouped(f, c);
    SortDescMembers(Grouped(f), d);
    var j :| 0 <= j < |s| && s[j] == d;
    if j < MaxBuckets {
      assert false;
    }
    forall b | b in SpendingSpec(ts, kind)
      ensures CategoryTotal(f, c) <= b.value
    {
      var i :| 0 <= i < |SpendingSpec(ts, kind)| && SpendingSpec(ts, kind)[i] == b;
      assert s[i] == b;
    }
  }

  /** Records of another type never change the chart. */
  lemma OtherTypeIgnored(ts: seq<Transaction>, t: Transaction, kind: TransactionType)
    requires t.kind != kind
    ensures SpendingSpec(ts + [t], kind) == SpendingSpec(ts, kind)
  {
    assert (ts + [t])[..|ts|] == ts;
  }

  /** An empty category and the literal category "Other" land in the same bucket. */
  lemma EmptyCategoryCountsAsOther(ts: seq<Transaction>, t: Transaction)
    requires t.category == "" || t.category == "Other"
    ensures CategoryTotal(ts + [t], "Other") == CategoryTotal(ts, "Other") + t.amount
  {
    assert (ts + [t])[..|ts|] == ts;
  }

  // ---------------------------------------------------------------------
  // The grouped entries add up to the filtered records
  // ---------------------------------------------------------------------

  function Indicator(ks: seq<string>, x: string, a: real): real {
    if ks == [] then 0.0
    else Indicator(ks[..|ks| - 1], x, a) + (if ks[|ks| - 1] == x then a else 0.0)
  }

  lemma {:induction false} IndicatorDistinct(ks: seq<string>, x: string, a: real)
    requires Distinct(ks)
    ensures Indicator(ks, x, a) == if x in ks then a else 0.0
  {
    if ks != [] {
      var init := ks[..|ks| - 1];
      assert Distinct(init);
      IndicatorDistinct(init, x, a);
      assert ks == init + [ks[|ks| - 1]];
      if ks[|ks| - 1] == x {
        assert x !in init;
      }
    }
  }

  lemma BucketSumAppend(bs: seq<Bucket>, b: Bucket)
    ensures BucketSum(bs + [b]) == BucketSum(bs) + b.value
  {
    if bs != [] {
      assert (bs + [b])[1..] == bs[1..] + [b];
    }
  }

  lemma {:induction false} BucketsStep(ks: seq<string>, ts: seq<Transaction>, t: Transaction)
    ensures BucketSum(BucketsFor(ks, ts + [t])) == BucketSum(BucketsFor(ks, ts)) + Indicator(ks, Label(t), t.amount)
  {
    assert (ts + [t])[..|ts|] == ts;
    if ks != [] {
      var init := ks[..|ks| - 1];
      var k := ks[|ks| - 1];
      BucketsStep(init, ts, t);
      BucketSumAppend(BucketsFor(init, ts + [t]), Bucket(k, CategoryTotal(ts + [t], k)));
      BucketSumAppend(BucketsFor(init, ts), Bucket(k, CategoryTotal(ts, k)));
    }
  }

  lemma CategoryTotalAbsent(ts: seq<Transaction>, c: string)
    requires c !in Labels(ts)
    ensures CategoryTotal(ts, c) == 0.0
  {
    if ts != [] {
      var init := ts[..|ts| - 1];
      assert Labels(ts) == Labels(init) + [Label(ts[|ts| - 1])];
      CategoryTotalAbsent(init, c);
    }
  }

  lemma BucketsForAppendKey(ks: seq<string>, x: string, ts: seq<Transaction>)
    ensures BucketSum(BucketsFor(ks + [x], ts)) == BucketSum(BucketsFor(ks, ts)) + CategoryTotal(ts, x)
  {
    assert BucketsFor(ks + [x], ts) == BucketsFor(ks, ts) + [Bucket(x, CategoryTotal(ts, x))] by {
      assert (ks + [x])[..|ks|] == ks;
    }
    BucketSumAppend(BucketsFor(ks, ts), Bucket(x, CategoryTotal(ts, x)));
  }

  /** Nothing is lost in the grouping: the entries add up to the records. */
  lemma {:induction false} GroupedSum(ts: seq<Transaction>)
    ensures BucketSum(Grouped(ts)) == AmountSum(ts)
  {
    if ts != [] {
      var init, t := ts[..|ts| - 1], ts[|ts| - 1];
      assert ts == init + [t];
      GroupedSum(init);
      GroupedStep(init, t);
    }
  }

  /** One more record adds its amount to the entries' sum, in its own bucket or a new one. */
  lemma GroupedStep(init: seq<Transaction>, t: Transaction)
    ensures BucketSum(Grouped(init + [t])) == BucketSum(Grouped(init)) + t.amount
  {
    var ts := init + [t];
    var x, k := Label(t), FirstSeen(Labels(init));
    assert ts[..|ts| - 1] == init;
    assert Labels(ts) == Labels(init) + [x];
    FirstSeenAppend(Labels(init), x);
    FirstSeenKeys(Labels(init));
    BucketsStep(k, init, t);
    IndicatorDistinct(k, x, t.amount);
    if x in k {
      assert Grouped(ts) == BucketsFor(k, ts);
    } else {
      BucketsForAppendKey(k, x, ts);
      CategoryTotalAbsent(init, x);
      CategoryTotalAppend(init, t, x);
      assert Grouped(ts) == BucketsFor(k + [x], ts);
    }
  }

  lemma {:induction false} TopSumBound(bs: seq<Bucket>, n: nat)
    requires forall b :: b in bs ==> b.value >= 0.0
    ensures BucketSum(Top(bs, n)) <= BucketSum(bs)
    decreases |bs|
  {
    if |bs| > n && n > 0 {
      assert Top(bs, n)[1..] == Top(bs[1..], n - 1);
      TopSumBound(bs[1..], n - 1);
    } else if |bs| > n {
      BucketSumNonNegative(bs);
    }
  }

  lemma {:induction false} BucketSumNonNegative(bs: seq<Bucket>)
    requires forall b :: b in bs ==> b.value >= 0.0
    ensures BucketSum(bs) >= 0.0
  {
    if bs != [] { BucketSumNonNegative(bs[1..]); }
  }

  lemma CategoryTotalNonNegative(ts: seq<Transaction>, c: string)
    requires NonNegativeAmounts(ts)
    ensures CategoryTotal(ts, c) >= 0.0
  {
    if ts != [] { CategoryTotalNonNegative(ts[..|ts| - 1], c); }
  }

  /**
   * The drawn total never exceeds the type's total, and equals it when there
   * are at most six categories (then nothing was cut off).
   */
  lemma DrawnTotal(ts: seq<Transaction>, kind: TransactionType)
    requires NonNegativeAmounts(ts)
    ensures BucketSum(SpendingSpec(ts, kind)) <= TypeTotal(ts, kind)
    ensures |FirstSeen(Labels(OfType(ts, kind)))| <= MaxBuckets ==>
              BucketSum(SpendingSpec(ts, kind)) == TypeTotal(ts, kind)
  {
    var f := OfType(ts, kind);
    OfTypeNonNegative(ts, kind);
    GroupedSum(f);
    var s := SortDesc(Grouped(f));
    SortDescSum(Grouped(f));
    forall b | b in s ensures b.value >= 0.0 {
      SortDescMembers(Grouped(f), b);
      var k :| 0 <= k < |Grouped(f)| && Grouped(f)[k] == b;
      CategoryTotalNonNegative(f, b.name);
    }
    TopSumBound(s, MaxBuckets);
  }

  // ---------------------------------------------------------------------
  // Bars, shares and colours
  // ---------------------------------------------------------------------

  /** `Math.max(...data.map(d => d.value), 1)`. */
  function MaxValue(data: seq<Bucket>): (m: real)
    ensures m >= 1.0
    ensures forall i :: 0 <= i < |data| ==> data[i].value <= m
    ensures m == 1.0 || exists i :: 0 <= i < |data| && data[i].value == m
  {
    if data == [] then 1.0
    else
      var rest := MaxValue(data[1..]);
      assert forall i :: 1 <= i < |data| ==> data[i] == data[1..][i - 1];
      if data[0].value >= rest then data[0].value else rest
  }

  /** The six colours, chosen by the chart's type. */
  function Palette(kind: TransactionType): (p: seq<string>)
    ensures |p| == MaxBuckets && Distinct(p)
  {
    if kind == Expense then ["#EF4444", "#F97316", "#EAB308", "#22C55E", "#3B82F6", "#8B5CF6"]
    else ["#22C55E", "#10B981", "#14B8A6", "#06B6D4", "#3B82F6", "#8B5CF6"]
  }

  datatype BarRow = BarRow(name: string, value: real, color: string, percent: real, width: real)

  datatype ChartView = NoData(message: string) | Bars(rows: seq<BarRow>, total: real)

  function PercentSum(rows: seq<BarRow>): real {
    if rows == [] then 0.0 else rows[0].percent + PercentSum(rows[1..])
  }

  /** `(value / maxValue) * 100`: a bar never runs past the track. */
  lemma WidthBounded(value: real, maxValue: real)
    requires maxValue >= 1.0 && 0.0 <= value <= maxValue
    ensures 0.0 <= Share(value, maxValue) <= 100.0
  {
    assert value / maxValue <= 1.0;
  }

  lemma ShareAdds(a: real, b: real, total: real)
    requires total != 0.0
    ensures Share(a, total) + Share(b, total) == Share(a + b, total)
  {
  }

  /** `(value / total) * 100`. */
  function Share(value: real, total: real): real
    requires total != 0.0
  {
    value / total * 100.0
  }

  lemma WholeShare(total: real)
    requires total != 0.0
    ensures Share(total, total) == 100.0
  {
    assert total / total == 1.0;
  }

  function Row(d: Bucket, kind: TransactionType, position: nat, maxValue: real, total: real): BarRow
    requires maxValue >= 1.0 && total != 0.0
  {
    BarRow(d.name, d.value, Palette(kind)[position % MaxBuckets], Share(d.value, total), Share(d.value, maxValue))
  }

  /** The rows for `data`, the first of which sits at position `start` of the chart. */
  function BarRows(data: seq<Bucket>, kind: TransactionType, start: nat, maxValue: real, total: real): (rows: seq<BarRow>)
    requires maxValue >= 1.0 && total != 0.0
    ensures |rows| == |data|
  {
    seq(|data|, i requires 0 <= i < |data| => Row(data[i], kind, start + i, maxValue, total))
  }

  /** The shares of the buckets' values, added up. */
  function ShareSum(data: seq<Bucket>, total: real): real
    requires total != 0.0
  {
    if data == [] then 0.0 else Share(data[0].value, total) + ShareSum(data[1..], total)
  }

  /** Shares distribute over the sum: adding the shares is taking the share of the sum. */
  lemma {:induction false} ShareSumIsShare(data: seq<Bucket>, total: real)
    requires total != 0.0
    ensures ShareSum(data, total) == Share(BucketSum(data), total)
  {
    if data != [] {
      ShareSumIsShare(data[1..], total);
      ShareAdds(data[0].value, BucketSum(data[1..]), total);
    }
  }

  /** Rows whose percentages are the buckets' shares add up to the shares' sum. */
  lemma {:induction false} PercentsAreShares(rows: seq<BarRow>, data: seq<Bucket>, total: real)
    requires total != 0.0 && |rows| == |data|
    requires forall i :: 0 <= i < |rows| ==> rows[i].percent == Share(data[i].value, total)
    ensures PercentSum(rows) == ShareSum(data, total)
  {
    if rows != [] {
      assert forall i :: 0 <= i < |rows| - 1 ==> rows[1..][i] == rows[i + 1] && data[1..][i] == data[i + 1];
      PercentsAreShares(rows[1..], data[1..], total);
    }
  }

  /** The shares of all rows add up to the rows' total over the denominator. */
  lemma PercentSumOfRows(data: seq<Bucket>, kind: TransactionType, start: nat, maxValue: real, total: real)
    requires maxValue >= 1.0 && total != 0.0
    ensures PercentSum(BarRows(data, kind, start, maxValue, total)) == Share(BucketSum(data), total)
  {
    PercentsAreShares(BarRows(data, kind, start, maxValue, total), data, total);
    ShareSumIsShare(data, total);
  }

  lemma RowsWidthBounded(data: seq<Bucket>, kind: TransactionType, maxValue: real, total: real)
    requires maxValue >= 1.0 && total != 0.0
    requires forall i :: 0 <= i < |data| ==> data[i].value <= maxValue
    ensures (forall i :: 0 <= i < |data| ==> data[i].value >= 0.0) ==>
              forall i :: 0 <= i < |data| ==> 0.0 <= BarRows(data, kind, 0, maxValue, total)[i].width <= 100.0
  {
    if forall i :: 0 <= i < |data| ==> data[i].value >= 0.0 {
      forall i | 0 <= i < |data| ensures 0.0 <= BarRows(data, kind, 0, maxValue, total)[i].width <= 100.0 {
        WidthBounded(data[i].value, maxValue);
      }
    }
  }

  /**
   * What the component renders for its data. Shares divide by the drawn
   * total without a zero check, so a non-empty chart needs a non-zero total.
   */
  function SpendingView(data: seq<Bucket>, kind: TransactionType): (v: ChartView)
    requires data != [] ==> BucketSum(data) != 0.0
    ensures v.NoData? <==> data == []
    ensures v.NoData? ==> v.message == "No " + TypeName(kind) + " transactions yet"
    ensures v.Bars? ==> v.total == BucketSum(data) && |v.rows| == |data|
    ensures v.Bars? ==> forall i :: 0 <= i < |data| ==>
              v.rows[i].name == data[i].name && v.rows[i].color == Palette(kind)[i % MaxBuckets]
    ensures v.Bars? ==> forall i :: 0 <= i < |data| ==>
              v.rows[i].value == data[i].value &&
              v.rows[i].percent == Share(data[i].value, BucketSum(data)) &&
              v.rows[i].width == Share(data[i].value, MaxValue(data))
    ensures v.Bars? && (forall i :: 0 <= i < |data| ==> data[i].value >= 0.0) ==>
              forall i :: 0 <= i < |v.rows| ==> 0.0 <= v.rows[i].width <= 100.0
    ensures v.Bars? ==> PercentSum(v.rows) == 100.0
  {
    if data == [] then NoData("No " + TypeName(kind) + " transactions yet")
    else
      var total := BucketSum(data);
      var maxValue := MaxValue(data);
      var rows := BarRows(data, kind, 0, maxValue, total);
      PercentSumOfRows(data, kind, 0, maxValue, total);
      WholeShare(total);
      RowsWidthBounded(data, kind, maxValue, total);
      Bars(rows, total)
  }

  /** No two drawn categories share a colour: at most six bars, six distinct colours. */
  lemma ColoursDistinct(ts: seq<Transaction>, kind: TransactionType, i: nat, j: nat)
    requires i < j < |SpendingSpec(ts, kind)|
    ensures Palette(kind)[i % MaxBuckets] != Palette(kind)[j % MaxBuckets]
  {
    assert |SpendingSpec(ts, kind)| <= MaxBuckets;
    assert i % MaxBuckets == i && j % MaxBuckets == j;
  }
}
