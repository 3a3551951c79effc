/**
 * The recipes page: the category tabs, the search on name and ingredients, and the
 * recipe card's ingredient preview, Anti-Gaspi badge and bookmark.
 */
module RecipesPage {

  import opened Text
  import opened Seqs

  datatype Recipe = Recipe(id: int, name: string, category: seq<string>, time: int, difficulty: string,
                           servings: int, rating: real, image: string, ingredients: seq<string>, saved: bool)

  /** Outside "all", a recipe is kept when its category list holds the active tab. */
  predicate InCategory(activeCategory: string, recipe: Recipe)
  {
    activeCategory != "all" ==> activeCategory in recipe.category
  }

  /** A non-empty query matches the lowercased name or any lowercased ingredient. */
  predicate Matches(searchQuery: string, recipe: Recipe)
  {
    searchQuery != [] ==>
      Contains(Lower(recipe.name), Lower(searchQuery)) ||
      exists k :: 0 <= k < |recipe.ingredients| && Contains(Lower(recipe.ingredients[k]), Lower(searchQuery))
  }

  predicate Shown(activeCategory: string, searchQuery: string, recipe: Recipe)
  {
    InCategory(activeCategory, recipe) && Matches(searchQuery, recipe)
  }

  /** The recipes on screen: those passing both tests, in catalogue order. */
  function VisibleRecipes(recipes: seq<Recipe>, activeCategory: string, searchQuery: string): (r: seq<Recipe>)
    ensures IsSubsequence(r, recipes)
    ensures forall i :: 0 <= i < |r| ==> InCategory(activeCategory, r[i]) && Matches(searchQuery, r[i])
    ensures forall i :: 0 <= i < |recipes| && InCategory(activeCategory, recipes[i]) && Matches(searchQuery, recipes[i])
              ==> recipes[i] in r
    ensures forall i :: 0 <= i < |recipes| ==>
              multiset(r)[recipes[i]] == if Shown(activeCategory, searchQuery, recipes[i]) then multiset(recipes)[recipes[i]] else 0
  {
    Filter(recipes, recipe => Shown(activeCategory, searchQuery, recipe))
  }

  /** The filter effect on `let items`: category first, then the search. */
  method FilterEffect(recipes: seq<Recipe>, activeCategory: string, searchQuery: string)
    returns (items: seq<Recipe>)
    ensures items == VisibleRecipes(recipes, activeCategory, searchQuery)
  {
    var byCategory := (recipe: Recipe) => activeCategory in recipe.category;
    var bySearch := (recipe: Recipe) =>
      Contains(Lower(recipe.name), Lower(searchQuery)) ||
      exists k :: 0 <= k < |recipe.ingredients| && Contains(Lower(recipe.ingredients[k]), Lower(searchQuery));
    items := recipes;
    if activeCategory != "all" {
      items := Filter(items, byCategory);
    }
    if searchQuery != [] {
      items := Filter(items, bySearch);
    }
    StagedFilter(recipes, activeCategory != "all", byCategory, searchQuery != [], bySearch,
                 recipe => Shown(activeCategory, searchQuery, recipe));
  }

  /** The Anti-Gaspi badge is shown exactly for recipes listed under "anti-gaspi". */
  predicate ShowsAntiGaspiBadge(recipe: Recipe)
  {
    "anti-gaspi" in recipe.category
  }

  /** Every recipe on the Anti-Gaspi tab carries the badge, whatever the query. */
  lemma AntiGaspiTabShowsBadge(recipes: seq<Recipe>, searchQuery: string)
    ensures forall i :: 0 <= i < |VisibleRecipes(recipes, "anti-gaspi", searchQuery)| ==>
              ShowsAntiGaspiBadge(VisibleRecipes(recipes, "anti-gaspi", searchQuery)[i])
  {
  }

  /** `ingredients.slice(0, 3).join(", ")` followed by "..." when more than three are listed. */
  function IngredientPreview(ingredients: seq<string>): (r: string)
    ensures |ingredients| <= 3 ==> r == Join(ingredients, ", ")
    ensures |ingredients| > 3 ==> r == Join(ingredients[..3], ", ") + "..."
  {
    var shown := if |ingredients| <= 3 then ingredients else ingredients[..3];
    assert |ingredients| <= 3 ==> shown == ingredients;
    Join(shown, ", ") + (if |ingredients| > 3 then "..." else "")
  }

  /** With more than three ingredients the preview ends in an ellipsis and names only the first three. */
  lemma PreviewOfLongList(ingredients: seq<string>)
    requires |ingredients| > 3
    ensures var r := IngredientPreview(ingredients); |r| >= 3 && r[|r| - 3..] == "..."
    ensures IngredientPreview(ingredients) == IngredientPreview(ingredients[..3]) + "..."
  {
  }

  lemma PreviewExample()
    ensures IngredientPreview(["Pain", "Lait", "Oeufs", "Sucre"]) == "Pain, Lait, Oeufs..."
    ensures IngredientPreview(["Pain"]) == "Pain"
  {
    var first := ["Pain", "Lait", "Oeufs"];
    assert ["Pain", "Lait", "Oeufs", "Sucre"][..3] == first;
    assert first[1..] == ["Lait", "Oeufs"] && first[1..][1..] == ["Oeufs"];
    assert Join(first, ", ") == "Pain, Lait, Oeufs";
  }

  /** A recipe card: the bookmark state starts from the recipe's stored flag. */
  class RecipeCard {
    const recipe: Recipe
    var isSaved: bool

    constructor(recipe: Recipe)
      ensures this.recipe == recipe && isSaved == recipe.saved
    {
      this.recipe := recipe;
      isSaved := recipe.saved;
    }

    /** The bookmark button: flips the saved flag; two clicks restore it. */
    method ToggleSaved()
      modifies this
      ensures isSaved == !old(isSaved)
    {
      isSaved := !isSaved;
    }
  }
}
