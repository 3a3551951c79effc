/**
 * The smart recipe generator's selection state: ingredients and dietary preferences
 * toggled one by one, the "select all expiring" shortcut, and the guard and reset that
 * open a generation.
 */
module SmartRecipeGenerator {

  import opened Wrappers
  import Seqs

  datatype Ingredient = Ingredient(id: string, name: string, quantity: string, expiryDate: Option<int>,
                                   daysLeft: Option<int>, isExpiring: bool, isSelected: bool, category: string)

  datatype RecipePreference = RecipePreference(id: string, name: string, isSelected: bool)

  datatype GeneratedRecipe = GeneratedRecipe(id: string, title: string)

  datatype Toast = Toast(title: string, description: string, destructive: bool)

  /** `toggleIngredient(id)`: flip the selection of every entry with that id; nothing else changes. */
  function ToggleIngredient(ingredients: seq<Ingredient>, id: string): (r: seq<Ingredient>)
    ensures |r| == |ingredients|
    ensures forall i :: 0 <= i < |r| ==>
              (ingredients[i].id == id ==> r[i] == ingredients[i].(isSelected := !ingredients[i].isSelected)) &&
              (ingredients[i].id != id ==> r[i] == ingredients[i])
  {
    seq(|ingredients|, i requires 0 <= i < |ingredients| =>
      if ingredients[i].id == id then ingredients[i].(isSelected := !ingredients[i].isSelected) else ingredients[i])
  }

  /** `togglePreference(id)`: the same on the preferences. */
  function TogglePreference(preferences: seq<RecipePreference>, id: string): (r: seq<RecipePreference>)
    ensures |r| == |preferences|
    ensures forall i :: 0 <= i < |r| ==>
              (preferences[i].id == id ==> r[i] == preferences[i].(isSelected := !preferences[i].isSelected)) &&
              (preferences[i].id != id ==> r[i] == preferences[i])
  {
    seq(|preferences|, i requires 0 <= i < |preferences| =>
      if preferences[i].id == id then preferences[i].(isSelected := !preferences[i].isSelected) else preferences[i])
  }

  lemma ToggleIngredientTwice(ingredients: seq<Ingredient>, id: string)
    ensures ToggleIngredient(ToggleIngredient(ingredients, id), id) == ingredients
  {
    var r := ToggleIngredient(ToggleIngredient(ingredients, id), id);
    assert forall i :: 0 <= i < |r| ==> r[i] == ingredients[i];
  }

  lemma TogglePreferenceTwice(preferences: seq<RecipePreference>, id: string)
    ensures TogglePreference(TogglePreference(preferences, id), id) == preferences
  {
    var r := TogglePreference(TogglePreference(preferences, id), id);
    assert forall i :: 0 <= i < |r| ==> r[i] == preferences[i];
  }

  /** Toggling two ids, in either order, gives the same list. */
  lemma ToggleIngredientsCommute(ingredients: seq<Ingredient>, a: string, b: string)
    ensures ToggleIngredient(ToggleIngredient(ingredients, a), b) == ToggleIngredient(ToggleIngredient(ingredients, b), a)
  {
  }

  /** `selectAllExpiringIngredients`: every expiring entry becomes selected; the others are untouched. */
  function SelectAllExpiring(ingredients: seq<Ingredient>): (r: seq<Ingredient>)
    ensures |r| == |ingredients|
    ensures forall i :: 0 <= i < |r| ==>
              (ingredients[i].isExpiring ==> r[i] == ingredients[i].(isSelected := true)) &&
              (!ingredients[i].isExpiring ==> r[i] == ingredients[i])
  {
    seq(|ingredients|, i requires 0 <= i < |ingredients| =>
      if ingredients[i].isExpiring then ingredients[i].(isSelected := true) else ingredients[i])
  }

  lemma SelectAllExpiringIdempotent(ingredients: seq<Ingredient>)
    ensures SelectAllExpiring(SelectAllExpiring(ingredients)) == SelectAllExpiring(ingredients)
  {
    var once := SelectAllExpiring(ingredients);
    assert forall i :: 0 <= i < |once| ==> SelectAllExpiring(once)[i] == once[i];
  }

  /** After the shortcut no expiring ingredient is left unselected, and every earlier selection remains. */
  lemma SelectAllExpiringOnlyAdds(ingredients: seq<Ingredient>)
    ensures forall i :: 0 <= i < |ingredients| ==>
              (ingredients[i].isExpiring ==> SelectAllExpiring(ingredients)[i].isSelected) &&
              (ingredients[i].isSelected ==> SelectAllExpiring(ingredients)[i].isSelected)
  {
  }

  /** `ingredients.filter(ing => ing.isSelected)`. */
  function Selected(ingredients: seq<Ingredient>): (r: seq<Ingredient>)
    ensures Seqs.IsSubsequence(r, ingredients)
    ensures forall i :: 0 <= i < |r| ==> r[i].isSelected
    ensures forall i :: 0 <= i < |ingredients| ==>
              multiset(r)[ingredients[i]] == if ingredients[i].isSelected then multiset(ingredients)[ingredients[i]] else 0
  {
    Seqs.Filter(ingredients, (ing: Ingredient) => ing.isSelected)
  }

  /** One tick of the progress interval: five more points, or none once 95 is reached. */
  function ProgressStep(prev: int): (r: int)
    ensures prev < 95 ==> r == prev + 5
    ensures prev >= 95 ==> r == prev
  {
    if prev >= 95 then prev else prev + 5
  }

  /** The progress after `k` ticks from `start`. */
  function Ticks(start: int, k: nat): int
    decreases k
  {
    if k == 0 then start else ProgressStep(Ticks(start, k - 1))
  }

  /** From 0 the bar climbs five points per tick and stops at 95: it never shows 100 while generating. */
  lemma {:induction false} TicksFromZero(k: nat)
    ensures Ticks(0, k) == if 5 * k < 95 then 5 * k else 95
    decreases k
  {
    if k > 0 {
      TicksFromZero(k - 1);
    }
  }

  const InsufficientSelection := Toast("Sélection insuffisante",
    "Veuillez sélectionner au moins 2 ingrédients pour générer des recettes.", true)

  class Generator {
    var ingredients: seq<Ingredient>
    var preferences: seq<RecipePreference>
    var isGenerating: bool
    var generationProgress: int
    var generatedRecipes: seq<GeneratedRecipe>

    constructor(ingredients: seq<Ingredient>, preferences: seq<RecipePreference>)
      ensures this.ingredients == ingredients && this.preferences == preferences
      ensures !isGenerating && generationProgress == 0 && generatedRecipes == []
    {
      this.ingredients := ingredients;
      this.preferences := preferences;
      isGenerating := false;
      generationProgress := 0;
      generatedRecipes := [];
    }

    method ToggleIngredientClick(id: string)
      modifies this
      ensures ingredients == ToggleIngredient(old(ingredients), id)
      ensures preferences == old(preferences) && isGenerating == old(isGenerating)
      ensures generationProgress == old(generationProgress) && generatedRecipes == old(generatedRecipes)
    {
      ingredients := ToggleIngredient(ingredients, id);
    }

    method TogglePreferenceClick(id: string)
      modifies this
      ensures preferences == TogglePreference(old(preferences), id)
      ensures ingredients == old(ingredients) && isGenerating == old(isGenerating)
      ensures generationProgress == old(generationProgress) && generatedRecipes == old(generatedRecipes)
    {
      preferences := TogglePreference(preferences, id);
    }

    method SelectAllExpiringClick()
      modifies this
      ensures ingredients == SelectAllExpiring(old(ingredients))
      ensures preferences == old(preferences) && isGenerating == old(isGenerating)
      ensures generationProgress == old(generationProgress) && generatedRecipes == old(generatedRecipes)
    {
      ingredients := SelectAllExpiring(ingredients);
    }

    /**
     * The opening of `generateRecipes`: with fewer than two selected ingredients, the error
     * toast and no state change; otherwise generation starts from progress 0 with no recipes.
     */
    method StartGeneration() returns (toast: Option<Toast>)
      modifies this
      ensures |Selected(old(ingredients))| < 2 ==>
                toast == Some(InsufficientSelection) &&
                isGenerating == old(isGenerating) && generationProgress == old(generationProgress) &&
                generatedRecipes == old(generatedRecipes)
      ensures |Selected(old(ingredients))| >= 2 ==>
                toast == None && isGenerating && generationProgress == 0 && generatedRecipes == []
      ensures ingredients == old(ingredients) && preferences == old(preferences)
    {
      var selectedIngredients := Seqs.Filter(ingredients, (ing: Ingredient) => ing.isSelected);
      if |selectedIngredients| < 2 {
        toast := Some(InsufficientSelection);
        return;
      }
      toast := None;
      isGenerating := true;
      generationProgress := 0;
      generatedRecipes := [];
    }

    /** A tick of the interval started by `generateRecipes`; `cleared` reports the `clearInterval` at 95. */
    method ProgressTick() returns (cleared: bool)
      modifies this
      ensures generationProgress == ProgressStep(old(generationProgress))
      ensures cleared <==> old(generationProgress) >= 95
      ensures ingredients == old(ingredients) && preferences == old(preferences)
      ensures isGenerating == old(isGenerating) && generatedRecipes == old(generatedRecipes)
    {
      if generationProgress >= 95 {
        cleared := true;
        return;
      }
      cleared := false;
      generationProgress := generationProgress + 5;
    }
  }
}
