/**
 * Grouping by key with a JavaScript object as the accumulator: the keys of
 * `Object.entries(acc)` come out in the order they were first inserted.
 */
module Grouping {

  predicate Distinct(ks: seq<string>) {
    forall i, j :: 0 <= i < j < |ks| ==> ks[i] != ks[j]
  }

  /** The distinct keys of `ks`, in the order of their first occurrence. */
  function FirstSeen(ks: seq<string>): seq<string> {
    if ks == [] then []
    else
      var p := FirstSeen(ks[..|ks| - 1]);
      var last := ks[|ks| - 1];
      if last in p then p else p + [last]
  }

  /** Each key is listed once, and exactly the keys that occur are listed. */
  lemma {:induction false} FirstSeenKeys(ks: seq<string>)
    ensures Distinct(FirstSeen(ks))
    ensures forall k :: k in FirstSeen(ks) <==> k in ks
    ensures |FirstSeen(ks)| <= |ks|
  {
    if ks != [] {
      var init := ks[..|ks| - 1];
      FirstSeenKeys(init);
      assert ks == init + [ks[|ks| - 1]];
    }
  }

  /** Appending a key extends the first-seen order only when the key is new. */
  lemma FirstSeenAppend(ks: seq<string>, k: string)
    ensures FirstSeen(ks + [k]) == if k in FirstSeen(ks) then FirstSeen(ks) else FirstSeen(ks) + [k]
  {
    assert (ks + [k])[..|ks|] == ks;
  }
}
