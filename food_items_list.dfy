/**
 * The inventory list on the dashboard: the expiring/all filter chained with a
 * case-insensitive search on name or category, and the picture chosen for an item.
 */
module FoodItemsList {

  import opened Wrappers
  import opened Text
  import opened Seqs

  datatype ListItem = ListItem(id: int, name: string, category: string, quantity: string,
                               expiryDate: string, daysLeft: int)

  datatype ListFilter = AllItems | ExpiringItems

  /** The first `.filter`: "expiring" keeps at most five days left, "all" keeps everything. */
  predicate PassesFilter(filter: ListFilter, item: ListItem)
  {
    filter == ExpiringItems ==> item.daysLeft <= 5
  }

  /** The second `.filter`: an empty query is falsy and keeps everything. */
  predicate MatchesQuery(query: string, item: ListItem)
  {
    query != [] ==> Contains(Lower(item.name), Lower(query)) || Contains(Lower(item.category), Lower(query))
  }

  /** `filteredItems`: the chained filters over `allItems`. */
  function FilteredItems(allItems: seq<ListItem>, filter: ListFilter, query: string): (r: seq<ListItem>)
    ensures IsSubsequence(r, allItems)
    ensures forall i :: 0 <= i < |r| ==> PassesFilter(filter, r[i]) && MatchesQuery(query, r[i])
    ensures forall i :: 0 <= i < |allItems| && PassesFilter(filter, allItems[i]) && MatchesQuery(query, allItems[i])
              ==> allItems[i] in r
    ensures forall i :: 0 <= i < |allItems| ==>
              multiset(r)[allItems[i]] ==
                if PassesFilter(filter, allItems[i]) && MatchesQuery(query, allItems[i]) then multiset(allItems)[allItems[i]] else 0
  {
    var byFilter := Filter(allItems, item => PassesFilter(filter, item));
    var r := Filter(byFilter, item => MatchesQuery(query, item));
    FilterFilter(allItems, item => PassesFilter(filter, item), item => MatchesQuery(query, item));
    r
  }

  /** "all" with an empty query shows the whole list, in order. */
  lemma AllWithoutQueryIsEverything(allItems: seq<ListItem>)
    ensures FilteredItems(allItems, AllItems, "") == allItems
  {
    FilterKeepsAll(allItems, item => PassesFilter(AllItems, item));
    FilterKeepsAll(allItems, item => MatchesQuery("", item));
  }

  /** "expiring" with an empty query shows exactly the items with at most five days left. */
  lemma ExpiringWithoutQuery(allItems: seq<ListItem>)
    ensures FilteredItems(allItems, ExpiringItems, "") == Filter(allItems, (item: ListItem) => item.daysLeft <= 5)
  {
    var byFilter := Filter(allItems, item => PassesFilter(ExpiringItems, item));
    FilterKeepsAll(byFilter, item => MatchesQuery("", item));
    FilterSameTest(allItems, item => PassesFilter(ExpiringItems, item), (item: ListItem) => item.daysLeft <= 5);
  }

  // ---- Pictures ----

  const CommonFoods: seq<string> := ["tomatoes", "bread", "eggs", "cheese", "chicken", "onions", "garlic", "pasta"]

  /** `.replace(/\s+/g, "-")`: every maximal run of white space becomes one dash. */
  function DashSpaceRuns(s: string, inRun: bool := false): (r: string)
    ensures |r| <= |s|
    decreases |s|
  {
    if s == [] then []
    else if IsSpace(s[0]) then
      if inRun then DashSpaceRuns(s[1..], true) else ['-'] + DashSpaceRuns(s[1..], true)
    else [s[0]] + DashSpaceRuns(s[1..], false)
  }

  /** No white space survives, and a name without white space is left as it is. */
  lemma {:induction false} DashSpaceRunsShape(s: string, inRun: bool)
    ensures forall i :: 0 <= i < |DashSpaceRuns(s, inRun)| ==> !IsSpace(DashSpaceRuns(s, inRun)[i])
    ensures (forall i :: 0 <= i < |s| ==> !IsSpace(s[i])) ==> DashSpaceRuns(s, inRun) == s
    decreases |s|
  {
    if s != [] {
      DashSpaceRunsShape(s[1..], IsSpace(s[0]));
      DashUnfold(s, inRun);
    }
  }

  /** Two words separated by a run of spaces are joined by a single dash. */
  lemma DashJoinsWords()
    ensures DashSpaceRuns("a  b") == "a-b"
  {
    assert "a  b"[1..] == "  b" && "  b"[1..] == " b" && " b"[1..] == "b";
    assert DashSpaceRuns(" b", true) == "b";
    assert DashSpaceRuns("  b", false) == "-b";
  }

  /** What the first character contributes: itself, a dash opening a run, or nothing inside a run. */
  function DashHead(c: char, inRun: bool): string
  {
    if !IsSpace(c) then [c] else if inRun then [] else ['-']
  }

  lemma DashUnfold(s: string, inRun: bool)
    requires s != []
    ensures DashSpaceRuns(s, inRun) == DashHead(s[0], inRun) + DashSpaceRuns(s[1..], IsSpace(s[0]))
  {
  }

  /** Whether the scan is inside a run after reading `a`, having started in state `inRun`. */
  predicate EndsInRun(a: string, inRun: bool)
  {
    if a == [] then inRun else IsSpace(a[|a| - 1])
  }

  lemma EndsInRunTail(a: string, inRun: bool)
    requires a != []
    ensures EndsInRun(a[1..], IsSpace(a[0])) == EndsInRun(a, inRun)
  {
  }

  /** Replacing runs in a concatenation: the second part starts in the state the first part ends in. */
  lemma {:induction false} DashAppend(a: string, u: string, inRun: bool)
    ensures DashSpaceRuns(a + u, inRun) ==
            DashSpaceRuns(a, inRun) + DashSpaceRuns(u, EndsInRun(a, inRun))
    decreases |a|
  {
    if a != [] {
      var t, s0 := a[1..], IsSpace(a[0]);
      assert (a + u)[0] == a[0] && (a + u)[1..] == t + u;
      EndsInRunTail(a, inRun);
      DashAppend(t, u, s0);
      DashUnfold(a + u, inRun);
      DashUnfold(a, inRun);
    } else {
      assert a + u == u;
    }
  }

  /** Inside a run, the rest of the run disappears up to the next word. */
  lemma {:induction false} DashSkipsRun(w: string, b: string)
    requires IsBlank(w)
    requires b == [] || !IsSpace(b[0])
    ensures DashSpaceRuns(w + b, true) == DashSpaceRuns(b, false)
    decreases |w|
  {
    if w == [] {
      assert w + b == b;
    } else {
      assert (w + b)[1..] == w[1..] + b;
      DashSkipsRun(w[1..], b);
    }
  }

  /**
   * Every maximal run of white space, whatever its length, becomes exactly one dash
   * between the replaced text before it and the replaced text after it.
   */
  lemma DashSplits(a: string, w: string, b: string)
    requires a == [] || !IsSpace(a[|a| - 1])
    requires w != [] && IsBlank(w)
    requires b == [] || !IsSpace(b[0])
    ensures DashSpaceRuns(a + w + b) == DashSpaceRuns(a) + "-" + DashSpaceRuns(b)
  {
    assert a + w + b == a + (w + b);
    assert !EndsInRun(a, false);
    DashAppend(a, w + b, false);
    DashOpensRun(w, b);
  }

  /** A run at the start, outside a run, becomes one dash before the next word. */
  lemma DashOpensRun(w: string, b: string)
    requires w != [] && IsBlank(w)
    requires b == [] || !IsSpace(b[0])
    ensures DashSpaceRuns(w + b, false) == "-" + DashSpaceRuns(b, false)
  {
    var u := w + b;
    assert u[0] == w[0] && u[1..] == w[1..] + b;
    DashUnfold(u, false);
    DashSkipsRun(w[1..], b);
  }

  /** `name.toLowerCase().replace(/\s+/g, "-")`. */
  function NormalizedName(name: string): string
  {
    DashSpaceRuns(Lower(name))
  }

  /** `commonFoods.find(food => normalizedName.includes(food))`, as an index. */
  function FirstContained(normalized: string, foods: seq<string>, from: nat := 0): (r: Option<nat>)
    requires from <= |foods|
    ensures r.Some? ==> from <= r.value < |foods| && Contains(normalized, foods[r.value])
    ensures r.Some? ==> forall j :: from <= j < r.value ==> !Contains(normalized, foods[j])
    ensures r.None? <==> forall j :: from <= j < |foods| ==> !Contains(normalized, foods[j])
    decreases |foods| - from
  {
    if from == |foods| then None
    else if Contains(normalized, foods[from]) then Some(from)
    else FirstContained(normalized, foods, from + 1)
  }

  const PlaceholderPrefix := "/placeholder.svg?height=60&width=60&text="

  /**
   * `getFoodImage`. `encode` stands for `encodeURIComponent`. An exact match of a listed
   * food is also a containment, so the first contained food always names the picture.
   */
  function FoodImage(name: string, encode: string -> string): (r: string)
    ensures var k := FirstContained(NormalizedName(name), CommonFoods);
      (k.Some? ==> r == "/images/foods/" + CommonFoods[k.value] + ".png") &&
      (k.None? ==> r == PlaceholderPrefix + encode(name))
  {
    var normalized := NormalizedName(name);
    var anyContained := exists k :: 0 <= k < |CommonFoods| && Contains(normalized, CommonFoods[k]);
    if normalized in CommonFoods || anyContained then
      var matched := match FirstContained(normalized, CommonFoods)
        case Some(k) => CommonFoods[k]
        case None => normalized;
      assert normalized in CommonFoods ==> Contains(normalized, normalized) by {
        ContainsEmptyAndSelf(normalized);
      }
      "/images/foods/" + matched + ".png"
    else
      PlaceholderPrefix + encode(name)
  }

  /** The picture is taken from the food folder exactly when some listed food occurs in the normalized name. */
  lemma FoodImageIsListedIff(name: string, encode: string -> string)
    ensures StartsWith(FoodImage(name, encode), "/images/foods/")
        <==> (exists k :: 0 <= k < |CommonFoods| && Contains(NormalizedName(name), CommonFoods[k]))
  {
    var normalized := NormalizedName(name);
    PathIsListedIff(FoodImage(name, encode), normalized, CommonFoods, encode(name));
  }

  lemma PathIsListedIff(r: string, normalized: string, foods: seq<string>, tail: string)
    requires var k := FirstContained(normalized, foods);
      (k.Some? ==> r == "/images/foods/" + foods[k.value] + ".png") &&
      (k.None? ==> r == PlaceholderPrefix + tail)
    ensures StartsWith(r, "/images/foods/") <==> (exists j :: 0 <= j < |foods| && Contains(normalized, foods[j]))
  {
    var k := FirstContained(normalized, foods);
    if k.Some? {
      assert r[..|"/images/foods/"|] == "/images/foods/";
    } else {
      assert r[1] == PlaceholderPrefix[1] == 'p';
    }
  }
}
