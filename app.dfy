/**
 * The application object and the data steps of its pages. The object holds
 * the category map and the favorites list in memory; every change is
 * followed by a rewrite of the corresponding file. A file is modelled as the
 * value last written to it (`None` while it does not exist); JSON encoding
 * and the file system are not modelled.
 */
module App {
  import opened Wrappers
  import opened Text
  import opened Lists
  import opened Recipes
  import opened Favorites

  class CulinaryApp {
    /** The category map, in insertion order. */
    var recipes: seq<Category>
    /** The favorite recipe ids, in the order they were added. */
    var favorites: seq<string>
    /** What the recipes file holds. */
    var recipesFile: Option<seq<Category>>
    /** What the favorites file holds. */
    var favoritesFile: Option<seq<string>>

    ghost predicate Valid()
      reads this
    {
      DistinctNames(recipes)
    }

    /**
     * Loads both files. A missing recipes file is replaced by the seed data,
     * which is written out at once; a missing favorites file means no
     * favorites and is left missing.
     */
    constructor (storedRecipes: Option<seq<Category>>, storedFavorites: Option<seq<string>>)
      requires storedRecipes.Some? ==> DistinctNames(storedRecipes.value)
      ensures Valid()
      ensures recipes == storedRecipes.GetOr(DefaultRecipes())
      ensures recipesFile == Some(recipes)
      ensures favorites == storedFavorites.GetOr([])
      ensures favoritesFile == storedFavorites
    {
      recipes := storedRecipes.GetOr(DefaultRecipes());
      recipesFile := storedRecipes;
      favorites := storedFavorites.GetOr([]);
      favoritesFile := storedFavorites;
      new;
      if storedRecipes.None? {
        SaveRecipes();
      }
    }

    /** Rewrites the recipes file with the current map. */
    method SaveRecipes()
      modifies this`recipesFile
      ensures recipesFile == Some(recipes)
    {
      recipesFile := Some(recipes);
    }

    /** Rewrites the favorites file with the current list. */
    method SaveFavorites()
      modifies this`favoritesFile
      ensures favoritesFile == Some(favorites)
    {
      favoritesFile := Some(favorites);
    }

    /** Every stored recipe tagged with its category, categories in map order, recipes in insertion order. */
    method AllRecipes() returns (all: seq<Listed>)
      ensures all == Flatten(recipes)
    {
      all := [];
      for i := 0 to |recipes|
        invariant all == Flatten(recipes[..i])
      {
        var category := recipes[i];
        for j := 0 to |category.recipes|
          invariant all == Flatten(recipes[..i]) + Tagged(category.name, category.recipes[..j])
        {
          all := all + [Listed(category.name, category.recipes[j])];
          assert Tagged(category.name, category.recipes[..j + 1])
            == Tagged(category.name, category.recipes[..j]) + [Listed(category.name, category.recipes[j])];
        }
        assert category.recipes[..|category.recipes|] == category.recipes;
        assert recipes[..i + 1][..i] == recipes[..i];
      }
      assert recipes[..|recipes|] == recipes;
    }

    /** The listed recipes whose text contains the query, ignoring case; all of them for the empty query. */
    method SearchRecipes(query: string) returns (found: seq<Listed>)
      ensures found == SearchResult(recipes, query)
    {
      if query == [] {
        found := AllRecipes();
        return;
      }
      var queryLower := Lower(query);
      found := [];
      var all := AllRecipes();
      for k := 0 to |all|
        invariant found == Filter(all[..k], MatchesQuery(query))
      {
        FilterPrefixStep(all, MatchesQuery(query), k);
        var text := Lower(SearchableText(all[k].recipe));
        if Contains(text, queryLower) {
          found := found + [all[k]];
        }
      }
      assert all[..|all|] == all;
    }

    /** Adds `id` unless it is already a favorite; reports whether the list changed. */
    method AddToFavorites(id: string) returns (changed: bool)
      modifies this`favorites, this`favoritesFile
      ensures changed == (id !in old(favorites))
      ensures favorites == WithFavorite(old(favorites), id)
      ensures favoritesFile == if changed then Some(favorites) else old(favoritesFile)
      ensures IsFavorite(id)
    {
      if id !in favorites {
        favorites := favorites + [id];
        SaveFavorites();
        return true;
      }
      return false;
    }

    /** Removes the first occurrence of `id` if it is a favorite; reports whether the list changed. */
    method RemoveFromFavorites(id: string) returns (changed: bool)
      modifies this`favorites, this`favoritesFile
      ensures changed == (id in old(favorites))
      ensures favorites == WithoutFavorite(old(favorites), id)
      ensures favoritesFile == if changed then Some(favorites) else old(favoritesFile)
      ensures NoDuplicates(old(favorites)) ==> !IsFavorite(id) && NoDuplicates(favorites)
    {
      ghost var before := favorites;
      if id in favorites {
        favorites := RemoveFirst(favorites, id);
        SaveFavorites();
        changed := true;
      } else {
        changed := false;
      }
      if NoDuplicates(before) {
        RemoveFavoriteEffect(before, id);
      }
    }

    /** Exact membership of `id` in the favorites list. */
    predicate IsFavorite(id: string)
      reads this
    {
      id in favorites
    }
  }

  /**
   * The search page: the search results, narrowed to one difficulty level
   * unless "All" is chosen.
   */
  method SearchPage(app: CulinaryApp, query: string, level: string) returns (shown: seq<Listed>)
    ensures shown == SearchPageResult(app.recipes, query, level)
    ensures forall e :: (e in shown <==>
      && e in Flatten(app.recipes)
      && Matches(query, e)
      && (level == AllLevels || e.recipe.difficulty == level))
    ensures IsSubsequence(shown, Flatten(app.recipes))
  {
    shown := app.SearchRecipes(query);
    shown := DifficultyFiltered(shown, level);
    if level == AllLevels {
      SearchMembers(app.recipes, query);
      SearchOrder(app.recipes, query);
    } else {
      SearchPageIsOneFilter(app.recipes, query, level);
      FilterSubsequence(Flatten(app.recipes), Both(MatchesQuery(query), HasDifficulty(level)));
    }
  }

  /** The favorites page: nothing without favorites, otherwise the listed recipes whose id is a favorite. */
  method FavoritesPage(app: CulinaryApp) returns (shown: seq<Listed>)
    ensures shown == Filter(Flatten(app.recipes), InFavorites(app.favorites))
    ensures forall e :: e in shown <==> e in Flatten(app.recipes) && app.IsFavorite(e.recipe.id)
    ensures IsSubsequence(shown, Flatten(app.recipes))
  {
    if app.favorites == [] {
      shown := [];
      FilterKeepsNone(Flatten(app.recipes), InFavorites(app.favorites));
      return;
    }
    var all := app.AllRecipes();
    shown := Filter(all, InFavorites(app.favorites));
    FilterMembers(all, InFavorites(app.favorites));
    FilterSubsequence(all, InFavorites(app.favorites));
  }

  /** What submitting the add-recipe form leads to. */
  datatype AddOutcome = Added(recipe: Recipe) | MissingRequiredField

  /**
   * The add-recipe page on submit: an incomplete form changes nothing;
   * a complete one builds the record, appends it to its category (created
   * if absent) and rewrites the recipes file.
   */
  method AddRecipePage(app: CulinaryApp, form: RecipeForm) returns (outcome: AddOutcome)
    requires app.Valid()
    modifies app`recipes, app`recipesFile
    ensures app.Valid()
    ensures !FormComplete(form) ==>
      && outcome == MissingRequiredField
      && app.recipes == old(app.recipes)
      && app.recipesFile == old(app.recipesFile)
    ensures FormComplete(form) ==>
      && outcome == Added(BuildRecipe(form, Total(old(app.recipes))))
      && app.recipes == WithRecipe(old(app.recipes), form.category, outcome.recipe)
      && app.recipesFile == Some(app.recipes)
      && Listed(form.category, outcome.recipe) in Flatten(app.recipes)
      && |Flatten(app.recipes)| == |Flatten(old(app.recipes))| + 1
  {
    if !FormComplete(form) {
      return MissingRequiredField;
    }
    var all := app.AllRecipes();
    FlattenLength(app.recipes);
    var recipe := BuildRecipe(form, |all|);
    var cats := app.recipes;
    var k := CategoryIndex(cats, form.category);
    if k == |cats| {
      cats := cats + [Category(form.category, [])];
    }
    cats := cats[k := Category(form.category, cats[k].recipes + [recipe])];
    WithRecipeShape(app.recipes, form.category, recipe);
    WithRecipeListed(app.recipes, form.category, recipe);
    app.recipes := cats;
    app.SaveRecipes();
    outcome := Added(recipe);
  }
}
