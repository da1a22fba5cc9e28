/**
 * `TabNavigationCoordinator`, the state behind the advanced tab bar: the selected index, a badge
 * count per tab index, and whether the bar is hidden. Animations change nothing observable, so the
 * `animated` flags are accepted and ignored; deep links arrive as their URL's path, and badge
 * notifications as their `userInfo` dictionary.
 */
module AdvancedTabBar {
  import opened Common
  import opened TabBar

  /** The deep-link paths, in tab order. */
  const DeepLinkPaths: seq<string> := ["/home", "/search", "/messages", "/profile"]

  /** The tab a deep-link path opens, if it names one. */
  function DeepLinkTab(path: string): (r: Option<int>)
    ensures r.Some? <==> path in DeepLinkPaths
    ensures r.Some? ==> 0 <= r.value < |DeepLinkPaths| && DeepLinkPaths[r.value] == path
  {
    if path == "/home" then Some(0)
    else if path == "/search" then Some(1)
    else if path == "/messages" then Some(2)
    else if path == "/profile" then Some(3)
    else None
  }

  /** Every tab with a deep link is opened by its own path, and only by it. */
  lemma DeepLinkRoundTrip(tab: int, path: string)
    requires 0 <= tab < |DeepLinkPaths|
    ensures DeepLinkTab(DeepLinkPaths[tab]) == Some(tab)
    ensures DeepLinkTab(path) == Some(tab) <==> path == DeepLinkPaths[tab]
  {
  }

  /** The badge map after `updateBadge(for: tabIndex, count:)`. */
  function BadgesAfter(badges: map<int, int>, tabIndex: int, count: Option<int>): (r: map<int, int>)
    ensures count.Some? && count.value > 0 ==> tabIndex in r && r[tabIndex] == count.value
    ensures !(count.Some? && count.value > 0) ==> tabIndex !in r
    ensures forall k :: k != tabIndex ==> (k in r <==> k in badges)
    ensures forall k :: k != tabIndex && k in r ==> r[k] == badges[k]
  {
    if count.Some? && count.value > 0 then badges[tabIndex := count.value] else badges - {tabIndex}
  }

  /** Every stored badge count is positive. */
  ghost predicate AllPositive(badges: map<int, int>) {
    forall k :: k in badges ==> badges[k] > 0
  }

  /** `tabBadges[index]`, the optional count handed to the tab item at `index`. */
  function BadgeFor(badges: map<int, int>, index: int): Option<int> {
    if index in badges then Some(badges[index]) else None
  }

  /** Updating a badge keeps every stored count positive. */
  lemma BadgesAfterPositive(badges: map<int, int>, tabIndex: int, count: Option<int>)
    requires AllPositive(badges)
    ensures AllPositive(BadgesAfter(badges, tabIndex, count))
  {
  }

  /** With positive counts only, a tab shows a badge exactly when the map holds its index. */
  lemma BadgeShownIffStored(badges: map<int, int>, index: int)
    requires AllPositive(badges)
    ensures BadgeShown(BadgeFor(badges, index)) <==> index in badges
  {
  }

  /**
   * The badge an advanced tab item draws for a stored count: "99+", 24 points wide, exactly above
   * 99; otherwise one or two digits that read back as the count, 18 points wide.
   */
  lemma StoredBadgeDisplay(badges: map<int, int>, index: int)
    requires AllPositive(badges) && index in badges
    ensures BadgeShown(BadgeFor(badges, index))
    ensures var count := badges[index];
      && (BadgeLabel(count) == "99+" <==> count > 99)
      && (count <= 99 ==> 0 < |BadgeLabel(count)| <= 2 && ParseDigits(BadgeLabel(count)) == count)
      && BadgeWidth(count) == (if count > 99 then 24 else 18)
  {
  }

  /** Setting a count and then clearing it leaves the other tabs' badges as they were. */
  lemma UpdateThenClear(badges: map<int, int>, tabIndex: int, count: int)
    ensures BadgesAfter(BadgesAfter(badges, tabIndex, Some(count)), tabIndex, None) == badges - {tabIndex}
  {
  }

  /** A `userInfo` value: an `Int`, or anything else. */
  datatype Payload = IntValue(n: int) | OtherValue

  /**
   * A badge notification's `(tabIndex, count)`: present only when both keys are present and both
   * values are `Int`s.
   */
  function BadgePayload(userInfo: Option<map<string, Payload>>): (r: Option<(int, int)>)
    ensures r.Some? <==>
      && userInfo.Some?
      && "tabIndex" in userInfo.value && userInfo.value["tabIndex"].IntValue?
      && "count" in userInfo.value && userInfo.value["count"].IntValue?
    ensures r.Some? ==> r.value == (userInfo.value["tabIndex"].n, userInfo.value["count"].n)
  {
    match userInfo
    case None => None
    case Some(info) =>
      if "tabIndex" in info && info["tabIndex"].IntValue? && "count" in info && info["count"].IntValue?
      then Some((info["tabIndex"].n, info["count"].n))
      else None
  }

  class TabNavigationCoordinator {
    var selectedTab: int
    var tabBadges: map<int, int>
    var isTabBarHidden: bool

    ghost predicate Valid()
      reads this
    {
      AllPositive(tabBadges)
    }

    /** The first tab, no badges, the bar shown. */
    constructor()
      ensures Valid()
      ensures selectedTab == 0 && tabBadges == map[] && !isTabBarHidden
    {
      selectedTab := 0;
      tabBadges := map[];
      isTabBarHidden := false;
    }

    /** `switchToTab(_:animated:)`: any index, unchecked, animated or not. */
    method SwitchToTab(index: int, animated: bool)
      modifies this`selectedTab
      ensures selectedTab == index
    {
      selectedTab := index;
    }

    /**
     * `updateBadge(for:count:)`: a positive count is stored, anything else removes the tab's
     * badge; other tabs keep theirs, and every stored count stays positive.
     */
    method UpdateBadge(tabIndex: int, count: Option<int>)
      requires Valid()
      modifies this`tabBadges
      ensures Valid()
      ensures tabBadges == BadgesAfter(old(tabBadges), tabIndex, count)
    {
      if count.Some? && count.value > 0 {
        tabBadges := tabBadges[tabIndex := count.value];
      } else {
        tabBadges := tabBadges - {tabIndex};
      }
    }

    /** `setTabBarHidden(_:animated:)`. */
    method SetTabBarHidden(hidden: bool, animated: bool)
      modifies this`isTabBarHidden
      ensures isTabBarHidden == hidden
    {
      isTabBarHidden := hidden;
    }

    /** `handleDeepLink(_:)` on a URL with path `path`: a known path opens its tab, any other does nothing. */
    method HandleDeepLink(path: string)
      modifies this`selectedTab
      ensures path in DeepLinkPaths ==> selectedTab == DeepLinkTab(path).value
      ensures path !in DeepLinkPaths ==> selectedTab == old(selectedTab)
    {
      match DeepLinkTab(path)
      case Some(tab) => SwitchToTab(tab, true);
      case None =>
    }

    /** A badge notification arrives: applied only when it carries an `Int` tab index and count. */
    method OnBadgeNotification(userInfo: Option<map<string, Payload>>)
      requires Valid()
      modifies this`tabBadges
      ensures Valid()
      ensures tabBadges == match BadgePayload(userInfo)
        case Some((tabIndex, count)) => BadgesAfter(old(tabBadges), tabIndex, Some(count))
        case None => old(tabBadges)
    {
      match BadgePayload(userInfo)
      case Some((tabIndex, count)) => UpdateBadge(tabIndex, Some(count));
      case None =>
    }
  }

  /** `EnhancedTabItem`; its content view is not modelled. */
  datatype EnhancedTabItem = EnhancedTabItem(id: Uuid, title: string, icon: string, selectedIcon: Option<string>,
                                             isEnabled: bool, accessibilityLabel: Option<string>)

  /** `==` on enhanced items compares ids only. */
  predicate SameEnhancedTab(a: EnhancedTabItem, b: EnhancedTabItem) {
    a.id == b.id
  }

  /** Building an enhanced item draws a fresh id, so it is unlike every item built before it. */
  method NewEnhancedTabItem(ids: UuidSource, title: string, icon: string, selectedIcon: Option<string>,
                            isEnabled: bool, accessibilityLabel: Option<string>) returns (item: EnhancedTabItem)
    modifies ids
    ensures item == EnhancedTabItem(old(ids.next), title, icon, selectedIcon, isEnabled, accessibilityLabel)
    ensures ids.next == old(ids.next) + 1
  {
    var id := ids.Fresh();
    item := EnhancedTabItem(id, title, icon, selectedIcon, isEnabled, accessibilityLabel);
  }
}
