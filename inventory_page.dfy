/**
 * The inventory page: the category tabs, the name search, the status badge of an item
 * card and the category options of the add dialog.
 */
module InventoryPage {

  import opened Text
  import opened Seqs

  datatype Category = Category(id: string, name: string, count: int)

  datatype InventoryItem = InventoryItem(id: int, name: string, category: string, quantity: string,
                                         expiry: string, image: string, daysLeft: int, status: string)

  /** The tab list; the first entry, "all", is the unfiltered view. */
  const Categories: seq<Category> := [
    Category("all", "Tous", 24),
    Category("fruits", "Fruits", 6),
    Category("vegetables", "Légumes", 8),
    Category("dairy", "Produits laitiers", 4),
    Category("bread", "Pain & Céréales", 3),
    Category("meat", "Viandes", 2),
    Category("fish", "Poissons", 1)]

  /** The category test: "all" keeps every item, any other tab only its own category. */
  predicate InCategory(activeCategory: string, item: InventoryItem)
  {
    activeCategory != "all" ==> item.category == activeCategory
  }

  /** The search test looks at the lowercased name only; an empty query keeps every item. */
  predicate NameMatches(searchQuery: string, item: InventoryItem)
  {
    searchQuery != [] ==> Contains(Lower(item.name), Lower(searchQuery))
  }

  predicate Shown(activeCategory: string, searchQuery: string, item: InventoryItem)
  {
    InCategory(activeCategory, item) && NameMatches(searchQuery, item)
  }

  /** What the page shows for a tab and a query: the items passing both tests, in stock order. */
  function VisibleItems(foodItems: seq<InventoryItem>, activeCategory: string, searchQuery: string): (r: seq<InventoryItem>)
    ensures IsSubsequence(r, foodItems)
    ensures forall i :: 0 <= i < |r| ==> InCategory(activeCategory, r[i]) && NameMatches(searchQuery, r[i])
    ensures forall i :: 0 <= i < |foodItems| && InCategory(activeCategory, foodItems[i]) && NameMatches(searchQuery, foodItems[i])
              ==> foodItems[i] in r
    ensures forall i :: 0 <= i < |foodItems| ==>
              multiset(r)[foodItems[i]] == if Shown(activeCategory, searchQuery, foodItems[i]) then multiset(foodItems)[foodItems[i]] else 0
  {
    Filter(foodItems, item => Shown(activeCategory, searchQuery, item))
  }

  /** Running the category and search filters in either order gives the same list. */
  lemma FilterOrderIrrelevant(foodItems: seq<InventoryItem>, activeCategory: string, searchQuery: string)
    ensures Filter(Filter(foodItems, item => InCategory(activeCategory, item)), item => NameMatches(searchQuery, item))
         == Filter(Filter(foodItems, item => NameMatches(searchQuery, item)), item => InCategory(activeCategory, item))
  {
    FilterCommutes(foodItems, item => InCategory(activeCategory, item), item => NameMatches(searchQuery, item));
  }

  /** The search never looks at the category: an item whose name misses the query is hidden on every tab. */
  lemma SearchIgnoresCategory(foodItems: seq<InventoryItem>, activeCategory: string, searchQuery: string, item: InventoryItem)
    requires searchQuery != [] && !Contains(Lower(item.name), Lower(searchQuery))
    ensures item !in VisibleItems(foodItems, activeCategory, searchQuery)
  {
  }

  /** The filter effect: `let items` narrowed by the category and then by the search. */
  method FilterEffect(foodItems: seq<InventoryItem>, activeCategory: string, searchQuery: string)
    returns (items: seq<InventoryItem>)
    ensures items == VisibleItems(foodItems, activeCategory, searchQuery)
  {
    var byCategory := (item: InventoryItem) => item.category == activeCategory;
    var byName := (item: InventoryItem) => Contains(Lower(item.name), Lower(searchQuery));
    items := foodItems;
    if activeCategory != "all" {
      items := Filter(items, byCategory);
    }
    if searchQuery != [] {
      items := Filter(items, byName);
    }
    StagedFilter(foodItems, activeCategory != "all", byCategory, searchQuery != [], byName,
                 item => Shown(activeCategory, searchQuery, item));
  }

  /** The page state: the selected tab, the query and the list on screen. */
  class Page {
    const foodItems: seq<InventoryItem>
    var activeCategory: string
    var searchQuery: string
    var filteredItems: seq<InventoryItem>

    ghost predicate Valid()
      reads this
    {
      filteredItems == VisibleItems(foodItems, activeCategory, searchQuery)
    }

    constructor(foodItems: seq<InventoryItem>)
      ensures this.foodItems == foodItems
      ensures activeCategory == "all" && searchQuery == [] && filteredItems == foodItems
      ensures Valid()
    {
      this.foodItems := foodItems;
      activeCategory := "all";
      searchQuery := [];
      filteredItems := foodItems;
      new;
      FilterKeepsAll(foodItems, item => Shown("all", [], item));
    }

    /** `onValueChange` of the tabs, followed by the effect. */
    method SelectCategory(category: string)
      modifies this
      ensures activeCategory == category && searchQuery == old(searchQuery)
      ensures Valid()
    {
      activeCategory := category;
      filteredItems := FilterEffect(foodItems, activeCategory, searchQuery);
    }

    /** `onChange` of the search box, followed by the effect. */
    method SetSearchQuery(query: string)
      modifies this
      ensures searchQuery == query && activeCategory == old(activeCategory)
      ensures Valid()
    {
      searchQuery := query;
      filteredItems := FilterEffect(foodItems, activeCategory, searchQuery);
    }
  }

  datatype StatusBadge = Destructive | WarningBadge | OutlineBadge

  /** The item card badge variant follows the stored status, not the day count. */
  function StatusBadgeFor(status: string): (v: StatusBadge)
    ensures v == Destructive <==> status == "danger"
    ensures v == WarningBadge <==> status == "warning"
  {
    if status == "danger" then Destructive else if status == "warning" then WarningBadge else OutlineBadge
  }

  /** `categories.slice(1)`: the add dialog offers every category but "all". */
  function DialogCategories(): (r: seq<Category>)
    ensures |r| == |Categories| - 1
    ensures forall i :: 0 <= i < |r| ==> r[i] == Categories[i + 1] && r[i].id != "all"
  {
    Categories[1..]
  }
}
