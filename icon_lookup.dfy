/**
 * The category-icon search shared by the chart legend and the transaction
 * table: walk an icon table in order and return the icon of the first key
 * that occurs in the lower-cased category, or the table's default.
 */
module IconLookup {
  import opened Text

  datatype IconEntry = IconEntry(key: string, icon: string)

  /** The key as it is compared: lower-cased by the chart legend, taken as written by the table. */
  function Compared(key: string, lowerKeys: bool): string {
    if lowerKeys then ToLower(key) else key
  }

  /** `text.includes(key)` for the key as it is compared. */
  predicate Hit(e: IconEntry, text: string, lowerKeys: bool) {
    Contains(text, Compared(e.key, lowerKeys))
  }

  /** The icon of the first entry that hits, or `fallback` when none does. */
  function FirstMatch(table: seq<IconEntry>, text: string, lowerKeys: bool, fallback: string): string
    decreases |table|
  {
    if table == [] then fallback
    else if Hit(table[0], text, lowerKeys) then table[0].icon
    else FirstMatch(table[1..], text, lowerKeys, fallback)
  }

  /**
   * `for (const [key, icon] of Object.entries(table)) if (text.includes(key)) return icon`,
   * followed by the default.
   */
  method LookupIcon(table: seq<IconEntry>, text: string, lowerKeys: bool, fallback: string) returns (icon: string)
    ensures icon == FirstMatch(table, text, lowerKeys, fallback)
  {
    for i := 0 to |table|
      invariant FirstMatch(table[i..], text, lowerKeys, fallback) == FirstMatch(table, text, lowerKeys, fallback)
    {
      assert table[i..][1..] == table[i + 1..];
      if Contains(text, if lowerKeys then ToLower(table[i].key) else table[i].key) {
        return table[i].icon;
      }
    }
    return fallback;
  }

  /** The entry at `j` wins exactly when it hits and no earlier entry does. */
  lemma {:induction false} FirstMatchAt(table: seq<IconEntry>, text: string, lowerKeys: bool, fallback: string, j: nat)
    requires j < |table| && Hit(table[j], text, lowerKeys)
    requires forall i :: 0 <= i < j ==> !Hit(table[i], text, lowerKeys)
    ensures FirstMatch(table, text, lowerKeys, fallback) == table[j].icon
    decreases j
  {
    if j > 0 {
      assert !Hit(table[0], text, lowerKeys);
      FirstMatchAt(table[1..], text, lowerKeys, fallback, j - 1);
    }
  }

  /** When no entry hits, the default is returned. */
  lemma {:induction false} FirstMatchNone(table: seq<IconEntry>, text: string, lowerKeys: bool, fallback: string)
    requires forall i :: 0 <= i < |table| ==> !Hit(table[i], text, lowerKeys)
    ensures FirstMatch(table, text, lowerKeys, fallback) == fallback
    decreases |table|
  {
    if table != [] {
      assert !Hit(table[0], text, lowerKeys);
      FirstMatchNone(table[1..], text, lowerKeys, fallback);
    }
  }

  /** The result is the default or the icon of some entry that hits. */
  lemma {:induction false} FirstMatchFrom(table: seq<IconEntry>, text: string, lowerKeys: bool, fallback: string)
    ensures var r := FirstMatch(table, text, lowerKeys, fallback);
            r == fallback || exists i :: 0 <= i < |table| && Hit(table[i], text, lowerKeys) && table[i].icon == r
    decreases |table|
  {
    if table != [] && !Hit(table[0], text, lowerKeys) {
      FirstMatchFrom(table[1..], text, lowerKeys, fallback);
      var r := FirstMatch(table, text, lowerKeys, fallback);
      if r != fallback {
        var i :| 0 <= i < |table[1..]| && Hit(table[1..][i], text, lowerKeys) && table[1..][i].icon == r;
        assert table[i + 1] == table[1..][i];
      }
    }
  }

  /** The empty text contains no non-empty key. */
  lemma EmptyTextMisses(table: seq<IconEntry>, lowerKeys: bool)
    requires forall i :: 0 <= i < |table| ==> table[i].key != []
    ensures forall i :: 0 <= i < |table| ==> !Hit(table[i], [], lowerKeys)
  {
    forall i | 0 <= i < |table| ensures !Hit(table[i], [], lowerKeys) {
      assert |Compared(table[i].key, lowerKeys)| == |table[i].key|;
    }
  }
}
