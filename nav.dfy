/**
 * The dashboard side navigation of components/dashboard-nav.tsx: three fixed
 * items, each highlighted when the current path selects it.
 */
module Nav {
  import Text

  datatype NavItem = NavItem(title: string, href: string, description: string)

  const DashboardHref := "/dashboard"
  const TransactionsHref := "/dashboard/transactions"
  const SettingsHref := "/dashboard/settings"

  const Items: seq<NavItem> := [
    NavItem("Dashboard", DashboardHref, "Overview of your finances"),
    NavItem("Transactions", TransactionsHref, "Manage your transactions"),
    NavItem("Settings", SettingsHref, "Account preferences")]

  /**
   * `isActive`: the path is the item's own link, or, for any item but the
   * overview, starts with it as a plain string.
   */
  function IsActive(pathname: string, href: string): (r: bool)
    ensures pathname == href ==> r
    ensures href == DashboardHref ==> (r <==> pathname == href)
    ensures href != DashboardHref ==> (r <==> Text.IsPrefix(href, pathname))
  {
    pathname == href || (href != DashboardHref && Text.IsPrefix(href, pathname))
  }

  /** The classes of an item's link and icon. */
  datatype ItemStyle = ItemStyle(link: string, icon: string)

  const ActiveLink := "bg-gradient-to-r from-indigo-500/10 to-purple-500/10 text-indigo-600 dark:text-indigo-400 border border-indigo-200 dark:border-indigo-800"
  const IdleLink := "hover:bg-gray-100 dark:hover:bg-gray-800 text-muted-foreground hover:text-foreground"
  const ActiveIcon := "text-indigo-500"
  const IdleIcon := "text-gray-400 group-hover:text-gray-600 dark:group-hover:text-gray-300"

  /** The highlighted link and icon classes are used exactly for an active item. */
  function StyleOf(active: bool): (s: ItemStyle)
    ensures s.link == ActiveLink <==> active
    ensures s.icon == ActiveIcon <==> active
  {
    if active then ItemStyle(ActiveLink, ActiveIcon) else ItemStyle(IdleLink, IdleIcon)
  }

  /** The rendered list: each item with whether it is active for the path. */
  function Rendered(pathname: string): (r: seq<(NavItem, bool)>)
    ensures |r| == |Items|
    ensures forall i :: 0 <= i < |r| ==> r[i].0 == Items[i] && (r[i].1 <==> IsActive(pathname, Items[i].href))
  {
    seq(|Items|, i requires 0 <= i < |Items| => (Items[i], IsActive(pathname, Items[i].href)))
  }

  /** The transactions and settings links do not extend one another. */
  lemma HrefsIndependent()
    ensures !Text.IsPrefix(TransactionsHref, SettingsHref) && !Text.IsPrefix(SettingsHref, TransactionsHref)
  {
    assert TransactionsHref[11] != SettingsHref[11];
  }

  /** Whatever the path, at most one of the three items is active. */
  lemma AtMostOneActive(pathname: string)
    ensures forall i, j :: 0 <= i < j < |Items| ==>
      !(IsActive(pathname, Items[i].href) && IsActive(pathname, Items[j].href))
  {
    if IsActive(pathname, TransactionsHref) {
      assert pathname[11] == TransactionsHref[11];
    }
  }

  /** The overview is active on its own path only; the match elsewhere is a plain prefix. */
  lemma PrefixMatches()
    ensures IsActive(DashboardHref, DashboardHref) && !IsActive(TransactionsHref, DashboardHref)
    ensures IsActive("/dashboard/settingsX", SettingsHref)
    ensures IsActive("/dashboard/transactions/42", TransactionsHref)
  {
    assert "/dashboard/settingsX"[..|SettingsHref|] == SettingsHref;
    assert "/dashboard/transactions/42"[..|TransactionsHref|] == TransactionsHref;
  }
}
