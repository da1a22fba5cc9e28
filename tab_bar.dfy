/**
 * The rules of the custom tab bar's items: when a badge is shown, what it reads and how wide it
 * is, which icon an item shows, what makes two items the same item, and what a tap selects.
 */
module TabBar {
  import opened Common

  predicate IsDigit(c: char) {
    '0' <= c <= '9'
  }

  function DigitChar(d: nat): (c: char)
    requires d < 10
    ensures IsDigit(c)
  {
    ('0' as int + d) as char
  }

  function DigitValue(c: char): (d: nat)
    requires IsDigit(c)
    ensures d < 10 && DigitChar(d) == c
  {
    c as int - '0' as int
  }

  /** The decimal digits of `n`, most significant first, without leading zeros. */
  function Digits(n: nat): (r: string)
    ensures |r| > 0
    ensures forall i :: 0 <= i < |r| ==> IsDigit(r[i])
    ensures |r| > 1 ==> r[0] != '0'
    ensures n < 10 <==> |r| == 1
  {
    if n < 10 then [DigitChar(n)] else Digits(n / 10) + [DigitChar(n % 10)]
  }

  /** The number a string of decimal digits denotes. */
  function ParseDigits(s: string): nat
    requires forall i :: 0 <= i < |s| ==> IsDigit(s[i])
  {
    if s == [] then 0
    else ParseDigits(s[..|s| - 1]) * 10 + DigitValue(s[|s| - 1])
  }

  /** Reading the digits back gives the number. */
  lemma {:induction false} DigitsRoundTrip(n: nat)
    ensures ParseDigits(Digits(n)) == n
  {
    var s := Digits(n);
    if n >= 10 {
      assert s[..|s| - 1] == Digits(n / 10);
      DigitsRoundTrip(n / 10);
    }
  }

  /** `"\(n)"` for an `Int`: a minus sign for negative numbers, then the digits. */
  function DecimalString(n: int): (r: string)
    ensures |r| > 0
    ensures forall i :: 0 < i < |r| ==> IsDigit(r[i])
    ensures n >= 0 <==> IsDigit(r[0])
    ensures n < 0 ==> r[0] == '-' && ParseDigits(r[1..]) == -n
    ensures n >= 0 ==> ParseDigits(r) == n
  {
    if n < 0 then
      DigitsRoundTrip(-n);
      assert ("-" + Digits(-n))[1..] == Digits(-n);
      "-" + Digits(-n)
    else
      DigitsRoundTrip(n);
      Digits(n)
  }

  /** The badge's text: "99+" exactly when the count exceeds 99, and otherwise the count itself. */
  function BadgeLabel(count: int): (r: string)
    ensures r == "99+" <==> count > 99
    ensures count <= 99 ==> r == DecimalString(count)
    ensures 0 <= count <= 99 ==> |r| <= 2
  {
    if count > 99 then "99+" else DecimalString(count)
  }

  /** A badge for 0..99 reads back as its count. */
  lemma BadgeLabelReadsBack(count: int)
    requires 0 <= count <= 99
    ensures ParseDigits(BadgeLabel(count)) == count
  {
    DigitsRoundTrip(count);
  }

  /** The badge's width: 24 for the capped "99+" label, 18 otherwise. */
  function BadgeWidth(count: int): (w: nat)
    ensures w == 24 <==> BadgeLabel(count) == "99+"
    ensures w == 18 <==> BadgeLabel(count) != "99+"
  {
    if count > 99 then 24 else 18
  }

  /** A badge is drawn only for a present, positive count. */
  predicate BadgeShown(badgeCount: Option<int>) {
    badgeCount.Some? && badgeCount.value > 0
  }

  /** Every shown badge has a digits-only label or the capped "99+" one. */
  lemma ShownBadgeLabel(badgeCount: Option<int>)
    requires BadgeShown(badgeCount)
    ensures var text := BadgeLabel(badgeCount.value);
      text == "99+" || (0 < |text| <= 2 && forall i :: 0 <= i < |text| ==> IsDigit(text[i]))
  {
  }

  /** The icon an item shows: the selected icon when selected and it has one, else the plain icon. */
  function TabIcon(icon: string, selectedIcon: Option<string>, isSelected: bool): (r: string)
    ensures r != icon ==> isSelected && selectedIcon == Some(r)
    ensures isSelected && selectedIcon.Some? ==> r == selectedIcon.value
    ensures !isSelected || selectedIcon.None? ==> r == icon
  {
    if isSelected then
      match selectedIcon
      case Some(s) => s
      case None => icon
    else icon
  }

  /** `TabItem`; its content view is not modelled. */
  datatype TabItem = TabItem(id: Uuid, title: string, icon: string, selectedIcon: Option<string>,
                             badgeCount: Option<int>)

  /** `==` on items compares ids only. */
  predicate SameTab(a: TabItem, b: TabItem) {
    a.id == b.id
  }

  /** Building an item draws a fresh id. */
  method NewTabItem(ids: UuidSource, title: string, icon: string, selectedIcon: Option<string>,
                    badgeCount: Option<int>) returns (item: TabItem)
    modifies ids
    ensures item == TabItem(old(ids.next), title, icon, selectedIcon, badgeCount)
    ensures ids.next == old(ids.next) + 1
  {
    var id := ids.Fresh();
    item := TabItem(id, title, icon, selectedIcon, badgeCount);
  }

  /** Two items built one after the other are different items, even with identical content. */
  method TwoItemsDiffer(ids: UuidSource, title: string, icon: string) returns (a: TabItem, b: TabItem)
    modifies ids
    ensures !SameTab(a, b)
    ensures a.(id := b.id) == b
  {
    a := NewTabItem(ids, title, icon, None, None);
    b := NewTabItem(ids, title, icon, None, None);
  }

  /**
   * `TabBarController` over its items. Its `selectedTab` state is what `CustomTabBar` updates
   * through its binding when an item is tapped.
   */
  class TabBarController {
    const tabs: seq<TabItem>
    var selectedTab: int

    /** A new bar shows its first tab. */
    constructor(tabs: seq<TabItem>)
      ensures this.tabs == tabs && selectedTab == 0
    {
      this.tabs := tabs;
      selectedTab := 0;
    }

    /** Whether item `index` is drawn as selected. */
    predicate IsSelected(index: int)
      reads this
    {
      selectedTab == index
    }

    /** Tapping item `index` selects it, and then exactly that item is drawn as selected. */
    method TapItem(index: nat)
      requires index < |tabs|
      modifies this`selectedTab
      ensures selectedTab == index
      ensures forall j :: 0 <= j < |tabs| ==> (IsSelected(j) <==> j == index)
    {
      selectedTab := index;
    }
  }
}
