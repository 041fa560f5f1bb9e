/**
 * Sums over a list of transactions that the dashboard pages and the charts
 * share: `transactions.filter(t => t.type === kind)` and
 * `.reduce((sum, t) => sum + Number(t.amount), 0)`.
 */
module Ledger {
  import opened Types

  predicate NonNegativeAmounts(ts: seq<Transaction>) {
    forall i :: 0 <= i < |ts| ==> ts[i].amount >= 0.0
  }

  /** `kept` holds each record of type `kind` as often as `ts` does, and nothing else. */
  ghost predicate KeepsEveryCopy(ts: seq<Transaction>, kept: seq<Transaction>, kind: TransactionType) {
    forall t :: multiset(kept)[t] == if t.kind == kind then multiset(ts)[t] else 0
  }

  /** `ts.filter(t => t.type === kind)`, order kept. */
  function OfType(ts: seq<Transaction>, kind: TransactionType): (r: seq<Transaction>)
    ensures |r| <= |ts|
    ensures forall t :: t in r <==> t in ts && t.kind == kind
  {
    if ts == [] then []
    else
      var last := ts[|ts| - 1];
      var rest := OfType(ts[..|ts| - 1], kind);
      assert forall t :: t in ts <==> t in ts[..|ts| - 1] || t == last;
      if last.kind == kind then rest + [last] else rest
  }

  /** The filter keeps each record of the requested type as many times as it occurs, and drops the others. */
  lemma {:induction false} OfTypeCounts(ts: seq<Transaction>, kind: TransactionType)
    ensures KeepsEveryCopy(ts, OfType(ts, kind), kind)
  {
    if ts != [] {
      OfTypeCounts(ts[..|ts| - 1], kind);
      OfTypeStep(ts, kind);
      KeepsEveryCopyStep(ts, OfType(ts[..|ts| - 1], kind), kind);
    }
  }

  /** Appending a record to the input, and to the kept records when it has the type, keeps the counts. */
  lemma KeepsEveryCopyStep(ts: seq<Transaction>, rest: seq<Transaction>, kind: TransactionType)
    requires ts != [] && KeepsEveryCopy(ts[..|ts| - 1], rest, kind)
    ensures KeepsEveryCopy(ts, rest + (if ts[|ts| - 1].kind == kind then [ts[|ts| - 1]] else []), kind)
  {
    var init, last := ts[..|ts| - 1], ts[|ts| - 1];
    assert ts == init + [last];
    var r := rest + (if last.kind == kind then [last] else []);
    forall x: Transaction ensures multiset(r)[x] == if x.kind == kind then multiset(ts)[x] else 0 {
      assert multiset(ts)[x] == multiset(init)[x] + multiset([last])[x];
    }
  }

  /** The filter of a concatenation is the concatenation of the filters: the kept records stay in their order. */
  lemma {:induction false} OfTypeConcat(a: seq<Transaction>, b: seq<Transaction>, kind: TransactionType)
    ensures OfType(a + b, kind) == OfType(a, kind) + OfType(b, kind)
    decreases |b|
  {
    if b == [] {
      assert a + b == a;
    } else {
      var init := b[..|b| - 1];
      DropLastOfConcat(a, b);
      OfTypeConcat(a, init, kind);
      OfTypeStep(a + b, kind);
      OfTypeStep(b, kind);
    }
  }

  lemma DropLastOfConcat(a: seq<Transaction>, b: seq<Transaction>)
    requires b != []
    ensures (a + b)[..|a + b| - 1] == a + b[..|b| - 1]
    ensures (a + b)[|a + b| - 1] == b[|b| - 1]
  {
  }

  lemma OfTypeStep(ts: seq<Transaction>, kind: TransactionType)
    requires ts != []
    ensures OfType(ts, kind) == OfType(ts[..|ts| - 1], kind) + (if ts[|ts| - 1].kind == kind then [ts[|ts| - 1]] else [])
  {
  }

  /** A single record is kept exactly when it has the requested type. */
  lemma OfTypeSingle(t: Transaction, kind: TransactionType)
    ensures OfType([t], kind) == if t.kind == kind then [t] else []
  {
  }

  /** The sum of the amounts, accumulated left to right. */
  function AmountSum(ts: seq<Transaction>): real {
    if ts == [] then 0.0 else AmountSum(ts[..|ts| - 1]) + ts[|ts| - 1].amount
  }

  /**
   * The income (or expense) figure of a page: the sum over the records of
   * that type. The source's trailing `|| 0` only replaces NaN, which finite
   * amounts never produce.
   */
  function TypeTotal(ts: seq<Transaction>, kind: TransactionType): real {
    AmountSum(OfType(ts, kind))
  }

  /** `balance = income - expense`: it counts every income record up and every expense record down. */
  function Balance(ts: seq<Transaction>): (b: real)
    ensures b == SignedSum(ts)
  {
    BalanceIsSignedSum(ts);
    TypeTotal(ts, Income) - TypeTotal(ts, Expense)
  }

  /** Independent reading of the balance: income counted up, expense counted down. */
  function SignedSum(ts: seq<Transaction>): real {
    if ts == [] then 0.0
    else
      var t := ts[|ts| - 1];
      SignedSum(ts[..|ts| - 1]) + (if t.kind == Income then t.amount else -t.amount)
  }

  lemma {:induction false} AmountSumNonNegative(ts: seq<Transaction>)
    requires NonNegativeAmounts(ts)
    ensures AmountSum(ts) >= 0.0
  {
    if ts != [] { AmountSumNonNegative(ts[..|ts| - 1]); }
  }

  lemma {:induction false} OfTypeNonNegative(ts: seq<Transaction>, kind: TransactionType)
    requires NonNegativeAmounts(ts)
    ensures NonNegativeAmounts(OfType(ts, kind))
  {
    var r := OfType(ts, kind);
    forall i | 0 <= i < |r| ensures r[i].amount >= 0.0 {
      assert r[i] in r;
      var j :| 0 <= j < |ts| && ts[j] == r[i];
    }
  }

  /** A type total is never negative when no amount is. */
  lemma TypeTotalNonNegative(ts: seq<Transaction>, kind: TransactionType)
    requires NonNegativeAmounts(ts)
    ensures TypeTotal(ts, kind) >= 0.0
  {
    OfTypeNonNegative(ts, kind);
    AmountSumNonNegative(OfType(ts, kind));
  }

  /** Every record is income or expense, so the two totals add up to the whole sum. */
  lemma {:induction false} TypeTotalsPartition(ts: seq<Transaction>)
    ensures TypeTotal(ts, Income) + TypeTotal(ts, Expense) == AmountSum(ts)
  {
    if ts != [] {
      var init := ts[..|ts| - 1];
      TypeTotalsPartition(init);
      var last := ts[|ts| - 1];
      if last.kind == Income {
        AmountSumAppend(OfType(init, Income), last);
      } else {
        AmountSumAppend(OfType(init, Expense), last);
      }
    }
  }

  /** `income - expense` is the signed sum of all records. */
  lemma {:induction false} BalanceIsSignedSum(ts: seq<Transaction>)
    ensures TypeTotal(ts, Income) - TypeTotal(ts, Expense) == SignedSum(ts)
  {
    if ts != [] {
      var init := ts[..|ts| - 1];
      BalanceIsSignedSum(init);
      var last := ts[|ts| - 1];
      if last.kind == Income {
        AmountSumAppend(OfType(init, Income), last);
      } else {
        AmountSumAppend(OfType(init, Expense), last);
      }
    }
  }

  lemma PrefixAll(ts: seq<Transaction>)
    ensures ts[..|ts|] == ts
  {
  }

  lemma AmountSumAppend(ts: seq<Transaction>, t: Transaction)
    ensures AmountSum(ts + [t]) == AmountSum(ts) + t.amount
  {
    assert (ts + [t])[..|ts|] == ts;
  }

  lemma TypeTotalAppend(ts: seq<Transaction>, t: Transaction, kind: TransactionType)
    ensures TypeTotal(ts + [t], kind) == TypeTotal(ts, kind) + (if t.kind == kind then t.amount else 0.0)
  {
    assert (ts + [t])[..|ts|] == ts;
    if t.kind == kind {
      AmountSumAppend(OfType(ts, kind), t);
    }
  }
}
