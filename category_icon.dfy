/** `CategoryIcon` of components/charts.tsx: the legend's icon for a category. */
module CategoryIcon {
  import opened Wrappers
  import opened Text
  import opened IconLookup

  const DefaultIcon: string := "\U{1F4B3}"

  /** The component's table, in declaration order; its own `default` entry is the last. */
  const Icons: seq<IconEntry> := [
    IconEntry("Salary", "\U{1F4B0}"),
    IconEntry("Freelance", "\U{1F4BC}"),
    IconEntry("Investment", "\U{1F4C8}"),
    IconEntry("Gift", "\U{1F381}"),
    IconEntry("Bonus", "\U{1F389}"),
    IconEntry("Groceries", "\U{1F6D2}"),
    IconEntry("Food & Dining", "\U{1F37D}\U{FE0F}"),
    IconEntry("Transport", "\U{1F697}"),
    IconEntry("Utilities", "\U{1F4A1}"),
    IconEntry("Shopping", "\U{1F6CD}\U{FE0F}"),
    IconEntry("Entertainment", "\U{1F3AC}"),
    IconEntry("Health", "\U{1F3E5}"),
    IconEntry("Education", "\U{1F4DA}"),
    IconEntry("Subscriptions", "\U{1F4F1}"),
    IconEntry("Insurance", "\U{1F6E1}\U{FE0F}"),
    IconEntry("default", DefaultIcon)
  ]

  /** `category?.toLowerCase() || ''`: a missing category reads as the empty string. */
  function LowerCategory(category: Option<string>): (r: string)
    ensures category == None ==> r == []
    ensures category.Some? ==> |r| == |category.value|
  {
    match category
    case None => ""
    case Some(c) => ToLower(c)
  }

  /** The loop over `Object.entries(icons)`, comparing lower-cased keys, then `icons.default`. */
  method IconFor(category: Option<string>) returns (icon: string)
    ensures icon == FirstMatch(Icons, LowerCategory(category), true, DefaultIcon)
  {
    var lowerCategory := LowerCategory(category);
    icon := LookupIcon(Icons, lowerCategory, true, DefaultIcon);
  }

  /** A missing or empty category gets the default icon. */
  lemma NoCategoryDefault(category: Option<string>)
    requires category == None || category == Some("")
    ensures FirstMatch(Icons, LowerCategory(category), true, DefaultIcon) == DefaultIcon
  {
    assert LowerCategory(category) == [];
    EmptyTextMisses(Icons, true);
    FirstMatchNone(Icons, [], true, DefaultIcon);
  }

  /**
   * Keys are compared case-insensitively, and "Salary" is tried first: any
   * category holding "salary" in any mix of cases gets its icon.
   */
  lemma SalaryIcon(category: string)
    requires Contains(ToLower(category), "salary")
    ensures FirstMatch(Icons, LowerCategory(Some(category)), true, DefaultIcon) == "\U{1F4B0}"
  {
    var text := LowerCategory(Some(category));
    assert Compared(Icons[0].key, true) == "salary";
    FirstMatchAt(Icons, text, true, DefaultIcon, 0);
  }
}
