/** The side menu: a fixed list of items, two of which expand into sub-items;
    opening shows a skeleton list for 500 ms; choosing an entry highlights it,
    closes the menu and reports its key to the optional callbacks. Icons and
    animations are not modelled; the skeleton timer is an event. */
module SidebarMenu {
  import opened Optional

  datatype SubItem = SubItem(key: string, caption: string)

  /** A menu item; `hasDropdown` and `subItems` are separate in the source and
      an item expands only when both are present. */
  datatype Item = Item(key: string, caption: string, hasDropdown: bool, subItems: Option<seq<SubItem>>)

  predicate HasSubItems(item: Item) {
    item.hasDropdown && item.subItems.Some?
  }

  const MENU_ITEMS: seq<Item> := [
    Item("dashboard", "Dashboard", false, None),
    Item("profile", "Profile", false, None),
    Item("request-moveout", "Request Moveout", false, None),
    Item("contract", "Contract", true,
         Some([SubItem("my-contract", "My Contract"), SubItem("renew-contract", "Renew Contract")])),
    Item("bills", "Bills", true,
         Some([SubItem("Bill-Due", "Bill Due"), SubItem("bill-history", "Bill History")])),
    Item("payment-history", "Payment History", false, None),
    Item("raise-ticket", "Raise Ticket", false, None),
    Item("logout", "Logout", false, None)
  ]

  const SKELETON_ROWS := 7
  const SKELETON_MS := 500

  /** The keys of all entries, each item followed by its sub-items. */
  function EntryKeys(items: seq<Item>): seq<string> {
    if items == [] then []
    else
      [items[0].key] + (if items[0].subItems.Some? then SubKeys(items[0].subItems.value) else []) +
      EntryKeys(items[1..])
  }

  function SubKeys(subs: seq<SubItem>): (keys: seq<string>)
    ensures |keys| == |subs| && forall i :: 0 <= i < |subs| ==> keys[i] == subs[i].key
  {
    if subs == [] then [] else [subs[0].key] + SubKeys(subs[1..])
  }

  predicate Distinct(keys: seq<string>) {
    forall i, j :: 0 <= i < j < |keys| ==> keys[i] != keys[j]
  }

  /** The twelve keys of the menu, in order. */
  const MENU_KEYS: seq<string> :=
    ["dashboard", "profile", "request-moveout", "contract", "my-contract", "renew-contract",
     "bills", "Bill-Due", "bill-history", "payment-history", "raise-ticket", "logout"]

  lemma MenuEntryKeys()
    ensures EntryKeys(MENU_ITEMS) == MENU_KEYS
  {
    var m := MENU_ITEMS;
    assert m[1..][1..][1..][1..][1..][1..][1..][1..] == [];
  }

  lemma MenuKeysDistinct()
    ensures Distinct(MENU_KEYS)
  {
  }

  /** No two entries share a key, so whatever `activeKey` is, at most one entry
      of the menu is highlighted. */
  lemma AtMostOneEntryActive(activeKey: string, i: nat, j: nat)
    requires i < |EntryKeys(MENU_ITEMS)| && j < |EntryKeys(MENU_ITEMS)|
    requires EntryKeys(MENU_ITEMS)[i] == activeKey && EntryKeys(MENU_ITEMS)[j] == activeKey
    ensures i == j
  {
    MenuEntryKeys();
    MenuKeysDistinct();
  }

  /** `expandedItems[key]` read as a boolean: a key never toggled is collapsed. */
  function Expanded(m: map<string, bool>, key: string): bool {
    key in m && m[key]
  }

  /** `{...prev, [key]: !prev[key]}` */
  function ToggleExpanded(m: map<string, bool>, key: string): (r: map<string, bool>)
    ensures Expanded(r, key) == !Expanded(m, key)
    ensures forall k :: k != key ==> Expanded(r, k) == Expanded(m, k)
    ensures r.Keys == m.Keys + {key}
  {
    m[key := !Expanded(m, key)]
  }

  /** Toggling a key twice restores its expansion, and every other key's. */
  lemma ToggleTwiceRestores(m: map<string, bool>, key: string)
    ensures forall k :: Expanded(ToggleExpanded(ToggleExpanded(m, key), key), k) == Expanded(m, k)
  {
  }

  /** A callback invocation. */
  datatype Call = OnSelect(key: string) | OnNavigate(key: string)

  /** `onSelect?.(key); onNavigate?.(key)`: each callback if it was passed. */
  function Choose(key: string, hasOnSelect: bool, hasOnNavigate: bool): (calls: seq<Call>)
    ensures |calls| <= 2
    ensures forall c :: c in calls ==> c.key == key
    ensures OnSelect(key) in calls <==> hasOnSelect
    ensures OnNavigate(key) in calls <==> hasOnNavigate
  {
    (if hasOnSelect then [OnSelect(key)] else []) + (if hasOnNavigate then [OnNavigate(key)] else [])
  }

  datatype SubRow = SubRow(key: string, caption: string, active: bool)
  datatype MenuRow = MenuRow(key: string, caption: string, active: bool, arrow: bool, children: seq<SubRow>)

  datatype View = Hidden | SkeletonList(placeholders: nat) | Menu(rows: seq<MenuRow>)

  /** The row of an item: highlighted when its key is active, with its sub-items
      shown only while it is expanded. */
  function RowOf(item: Item, activeKey: string, expanded: map<string, bool>): (r: MenuRow)
    ensures r.active <==> item.key == activeKey
    ensures r.arrow <==> HasSubItems(item)
    ensures !(HasSubItems(item) && Expanded(expanded, item.key)) ==> r.children == []
    ensures HasSubItems(item) && Expanded(expanded, item.key) ==>
      |r.children| == |item.subItems.value| &&
      forall i :: 0 <= i < |r.children| ==>
        r.children[i].key == item.subItems.value[i].key && (r.children[i].active <==> item.subItems.value[i].key == activeKey)
  {
    MenuRow(item.key, item.caption, item.key == activeKey, HasSubItems(item),
      if HasSubItems(item) && Expanded(expanded, item.key) then
        seq(|item.subItems.value|, i requires 0 <= i < |item.subItems.value| =>
          SubRow(item.subItems.value[i].key, item.subItems.value[i].caption, item.subItems.value[i].key == activeKey))
      else [])
  }

  class Sidebar {
    var visible: bool
    var activeKey: string
    var expandedItems: map<string, bool>
    var showSkeleton: bool
    /** `skeletonTimerRef.current` holds a pending timer. */
    var timerArmed: bool

    /** The timer is pending only while the menu is open on its skeleton. */
    ghost predicate Valid()
      reads this
    {
      timerArmed ==> visible && showSkeleton
    }

    /** Hidden, "dashboard" active, nothing expanded, no timer. */
    constructor ()
      ensures Valid()
      ensures !visible && activeKey == "dashboard" && expandedItems == map[] && !showSkeleton && !timerArmed
    {
      visible := false;
      activeKey := "dashboard";
      expandedItems := map[];
      showSkeleton := false;
      timerArmed := false;
    }

    /** `open`: visible on the skeleton, with any pending timer replaced by a
        single new one. */
    method Open()
      modifies this
      ensures Valid()
      ensures visible && showSkeleton && timerArmed
      ensures activeKey == old(activeKey) && expandedItems == old(expandedItems)
    {
      visible := true;
      showSkeleton := true;
      // the pending timer, if any, is cleared before the new one is set
      timerArmed := true;
    }

    /** The 500 ms timer: the skeleton gives way to the list. */
    method SkeletonTimerFires()
      requires Valid() && timerArmed
      modifies this
      ensures Valid()
      ensures !showSkeleton && !timerArmed && visible
      ensures activeKey == old(activeKey) && expandedItems == old(expandedItems)
    {
      showSkeleton := false;
      timerArmed := false;
    }

    /** `close` (also a tap on the backdrop): hidden, and the timer cancelled. */
    method Close()
      modifies this
      ensures Valid()
      ensures !visible && !showSkeleton && !timerArmed
      ensures activeKey == old(activeKey) && expandedItems == old(expandedItems)
    {
      visible := false;
      showSkeleton := false;
      timerArmed := false;
    }

    /** Unmounting cancels a pending timer. */
    method Unmount()
      modifies this
      ensures !timerArmed
      ensures visible == old(visible) && showSkeleton == old(showSkeleton)
      ensures activeKey == old(activeKey) && expandedItems == old(expandedItems)
    {
      timerArmed := false;
    }

    method ToggleExpand(key: string)
      requires Valid()
      modifies this
      ensures Valid()
      ensures expandedItems == ToggleExpanded(old(expandedItems), key)
      ensures visible == old(visible) && showSkeleton == old(showSkeleton) && timerArmed == old(timerArmed)
      ensures activeKey == old(activeKey)
    {
      expandedItems := expandedItems[key := !Expanded(expandedItems, key)];
    }

    /** `handleItem`: an item with sub-items only expands or collapses; any other
        item becomes active, closes the menu and is reported. */
    method HandleItem(item: Item, hasOnSelect: bool, hasOnNavigate: bool) returns (calls: seq<Call>)
      requires Valid()
      modifies this
      ensures Valid()
      ensures HasSubItems(item) ==>
        calls == [] && expandedItems == ToggleExpanded(old(expandedItems), item.key) &&
        activeKey == old(activeKey) && visible == old(visible) &&
        showSkeleton == old(showSkeleton) && timerArmed == old(timerArmed)
      ensures !HasSubItems(item) ==>
        calls == Choose(item.key, hasOnSelect, hasOnNavigate) && activeKey == item.key &&
        !visible && !showSkeleton && !timerArmed && expandedItems == old(expandedItems)
    {
      if HasSubItems(item) {
        ToggleExpand(item.key);
        calls := [];
        return;
      }
      activeKey := item.key;
      Close();
      calls := Choose(item.key, hasOnSelect, hasOnNavigate);
    }

    /** `handleSubItem`: the sub-item becomes active, the menu closes and the
        sub-item's own key is reported; its parent plays no part. */
    method HandleSubItem(sub: SubItem, parent: Item, hasOnSelect: bool, hasOnNavigate: bool) returns (calls: seq<Call>)
      modifies this
      ensures Valid()
      ensures calls == Choose(sub.key, hasOnSelect, hasOnNavigate)
      ensures activeKey == sub.key && !visible && !showSkeleton && !timerArmed
      ensures expandedItems == old(expandedItems)
    {
      activeKey := sub.key;
      Close();
      calls := Choose(sub.key, hasOnSelect, hasOnNavigate);
    }

    /** Nothing while hidden; seven placeholder rows on the skeleton; otherwise
        one row per item. */
    function View(): (v: View)
      reads this
      ensures v.Hidden? <==> !visible
      ensures v.SkeletonList? <==> visible && showSkeleton
      ensures v.Menu? ==>
        (|v.rows| == |MENU_ITEMS| &&
         forall i :: 0 <= i < |v.rows| ==> v.rows[i] == RowOf(MENU_ITEMS[i], activeKey, expandedItems))
    {
      if !visible then Hidden
      else if showSkeleton then SkeletonList(SKELETON_ROWS)
      else
        var active, expanded := activeKey, expandedItems;
        Menu(seq(|MENU_ITEMS|, i requires 0 <= i < |MENU_ITEMS| => RowOf(MENU_ITEMS[i], active, expanded)))
    }
  }

  /** Expanding "Contract" then choosing "Renew Contract": the sub-item is
      reported and highlighted, and the group stays expanded for next time. */
  method ChooseRenewContract() returns (calls: seq<Call>, active: string, expanded: bool, visible: bool)
    ensures calls == [OnSelect("renew-contract"), OnNavigate("renew-contract")]
    ensures active == "renew-contract" && expanded && !visible
  {
    var menu := new Sidebar();
    menu.Open();
    menu.SkeletonTimerFires();
    var none := menu.HandleItem(MENU_ITEMS[3], true, true);
    calls := menu.HandleSubItem(MENU_ITEMS[3].subItems.value[1], MENU_ITEMS[3], true, true);
    active := menu.activeKey;
    expanded := Expanded(menu.expandedItems, "contract");
    visible := menu.visible;
  }
}
