/** The stock list (src/pages/inventory/Inventory.jsx): the tab, type and
    search filter over the fetched items, the "Current Stock" count, and how
    an item's volume and id are displayed. */
module InventoryFilter {
  import opened Wrappers
  import Text
  import Seqs

  /** The fields of a stock item the page reads. */
  datatype Item = Item(
    status: string,
    inventoryType: string,
    bloodGroup: string,
    bagId: Option<string>,
    unitId: Option<string>,
    quantity: int)

  datatype Tab = ActiveTab | HistoryTab

  /** `(x || "")`: a missing id reads as the empty string. */
  function OrEmpty(x: Option<string>): string {
    x.GetOr("")
  }

  /** The search term, lower-cased, occurs in the lower-cased group, bag id or unit id. */
  predicate MatchesSearch(item: Item, search: string) {
    var term := Text.ToLower(search);
    || Text.Contains(Text.ToLower(item.bloodGroup), term)
    || Text.Contains(Text.ToLower(OrEmpty(item.bagId)), term)
    || Text.Contains(Text.ToLower(OrEmpty(item.unitId)), term)
  }

  /** The `filteredItems` predicate. */
  predicate Listed(item: Item, tab: Tab, filterType: string, search: string) {
    && (tab == ActiveTab ==> item.status != "out" && item.status != "expired")
    && (tab == HistoryTab ==> item.status != "available")
    && (filterType == "All" || item.inventoryType == filterType)
    && (search == "" || MatchesSearch(item, search))
  }

  /** `items.filter(...)`: the listed items, in their original order, each
      as often as it occurs in `items`. */
  function FilteredItems(items: seq<Item>, tab: Tab, filterType: string, search: string): (r: seq<Item>)
    ensures forall x :: x in r <==> x in items && Listed(x, tab, filterType, search)
    ensures forall x :: multiset(r)[x] == if Listed(x, tab, filterType, search) then multiset(items)[x] else 0
    ensures Seqs.IsSubsequence(r, items)
    decreases |items|
  {
    if items == [] then []
    else
      var rest := FilteredItems(items[1..], tab, filterType, search);
      assert items == [items[0]] + items[1..];
      assert forall x :: x in items <==> x == items[0] || x in items[1..];
      if Listed(items[0], tab, filterType, search) then [items[0]] + rest
      else
        assert rest != [] ==> rest[0] in rest && rest[0] != items[0];
        rest
  }

  /** What the filters guarantee of every listed item. */
  lemma ListedItemsObeyFilters(items: seq<Item>, tab: Tab, filterType: string, search: string, x: Item)
    requires x in FilteredItems(items, tab, filterType, search)
    ensures tab == ActiveTab ==> x.status != "out" && x.status != "expired"
    ensures tab == HistoryTab ==> x.status != "available"
    ensures filterType != "All" ==> x.inventoryType == filterType
    ensures search != "" ==> MatchesSearch(x, search)
  {
  }

  /** An empty search and the "All" type leave only the tab filter. */
  lemma NoSearchKeepsTab(items: seq<Item>, tab: Tab, x: Item)
    requires x in items
    requires tab == ActiveTab ==> x.status != "out" && x.status != "expired"
    requires tab == HistoryTab ==> x.status != "available"
    ensures x in FilteredItems(items, tab, "All", "")
  {
  }

  /** The "Current Stock" tab count: items whose status is "available". A
      single item counts one exactly when it is available; with the additivity
      of `AvailableCountAppend` this fixes the count of every list. */
  function AvailableCount(items: seq<Item>): (n: nat)
    ensures n <= |items|
    ensures n == 0 <==> forall i :: 0 <= i < |items| ==> items[i].status != "available"
    ensures |items| == 1 ==> (n == 1 <==> items[0].status == "available")
    decreases |items|
  {
    if items == [] then 0
    else (if items[0].status == "available" then 1 else 0) + AvailableCount(items[1..])
  }

  /** The count of two lists joined is the sum of their counts. */
  lemma {:induction false} AvailableCountAppend(a: seq<Item>, b: seq<Item>)
    ensures AvailableCount(a + b) == AvailableCount(a) + AvailableCount(b)
    decreases |a|
  {
    if a == [] {
      assert a + b == b;
    } else {
      assert (a + b)[0] == a[0] && (a + b)[1..] == a[1..] + b;
      AvailableCountAppend(a[1..], b);
    }
  }

  /** The count is the number of available items that the active tab lists
      under no other filter, hence never more than that list. */
  lemma AvailableCountAtMostActive(items: seq<Item>)
    ensures AvailableCount(items) <= |FilteredItems(items, ActiveTab, "All", "")|
    decreases |items|
  {
    if items != [] {
      AvailableCountAtMostActive(items[1..]);
    }
  }

  /** Each unit is a 450 ml bag. */
  function VolumeMl(item: Item): (ml: int)
    ensures item.quantity >= 0 ==> ml >= 0
    ensures ml == 450 * item.quantity
  {
    item.quantity * 450
  }

  /** `item.bagId || item.unitId || "N/A"`. */
  function DisplayId(item: Item): (r: string)
    ensures OrEmpty(item.bagId) != "" ==> r == item.bagId.value
    ensures OrEmpty(item.bagId) == "" && OrEmpty(item.unitId) != "" ==> r == item.unitId.value
    ensures OrEmpty(item.bagId) == "" && OrEmpty(item.unitId) == "" ==> r == "N/A"
  {
    if OrEmpty(item.bagId) != "" then item.bagId.value
    else if OrEmpty(item.unitId) != "" then item.unitId.value
    else "N/A"
  }
}
