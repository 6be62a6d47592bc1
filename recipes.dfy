/**
 * The recipe store of the Telugu culinary app as values: recipe records, the
 * ordered category map (category name to an ordered list of recipes, in
 * insertion order as a Python dict keeps it), the flattened listing, the
 * search, the two selections the search and favorites pages make, and the
 * record the add-recipe form builds.
 */
module Recipes {
  import opened Text
  import opened Lists

  /* ---------------------------------------------------------------------- */
  /* Data model                                                             */
  /* ---------------------------------------------------------------------- */

  /** One recipe record as stored in a category list. */
  datatype Recipe = Recipe(
    id: string,
    name: string,
    englishName: string,
    ingredients: seq<string>,
    cookingTime: string,
    difficulty: string,
    servings: string,
    description: string,
    instructions: seq<string>)

  /** One entry of the category map. */
  datatype Category = Category(name: string, recipes: seq<Recipe>)

  /** A recipe as the flattened listing hands it out, tagged with its category. */
  datatype Listed = Listed(category: string, recipe: Recipe)

  /** The category map is a dictionary: no name appears twice. */
  predicate DistinctNames(cats: seq<Category>) {
    forall i, j :: 0 <= i < j < |cats| ==> cats[i].name != cats[j].name
  }

  /** The number of recipes in all categories together. */
  function Total(cats: seq<Category>): nat {
    if cats == [] then 0 else Total(cats[..|cats| - 1]) + |cats[|cats| - 1].recipes|
  }

  /* ---------------------------------------------------------------------- */
  /* Flattening                                                             */
  /* ---------------------------------------------------------------------- */

  /** The recipes of one category, each tagged with the category name. */
  function Tagged(name: string, rs: seq<Recipe>): (t: seq<Listed>)
    ensures |t| == |rs|
    ensures forall j :: 0 <= j < |rs| ==> t[j] == Listed(name, rs[j])
  {
    seq(|rs|, j requires 0 <= j < |rs| => Listed(name, rs[j]))
  }

  /** The listing: categories in map order, recipes in insertion order. */
  function Flatten(cats: seq<Category>): seq<Listed> {
    if cats == [] then []
    else
      var last := cats[|cats| - 1];
      Flatten(cats[..|cats| - 1]) + Tagged(last.name, last.recipes)
  }

  /** The listing holds as many entries as the map holds recipes. */
  lemma {:induction false} FlattenLength(cats: seq<Category>)
    ensures |Flatten(cats)| == Total(cats)
  {
    if cats != [] {
      FlattenLength(cats[..|cats| - 1]);
    }
  }

  /** Recipe `j` of category `i` sits at position `Total(cats[..i]) + j`, tagged with its category. */
  lemma {:induction false} FlattenAt(cats: seq<Category>, i: nat, j: nat)
    requires i < |cats| && j < |cats[i].recipes|
    ensures Total(cats[..i]) + j < |Flatten(cats)|
    ensures Flatten(cats)[Total(cats[..i]) + j] == Listed(cats[i].name, cats[i].recipes[j])
  {
    var init := cats[..|cats| - 1];
    FlattenLength(cats);
    if i == |cats| - 1 {
      FlattenLength(init);
      assert cats[..i] == init;
    } else {
      FlattenAt(init, i, j);
      assert init[..i] == cats[..i];
    }
  }

  /** Every position of the listing holds some recipe `j` of some category `i`. */
  lemma {:induction false} FlattenSource(cats: seq<Category>, k: nat)
    requires k < |Flatten(cats)|
    ensures exists i, j ::
      && 0 <= i < |cats| && 0 <= j < |cats[i].recipes|
      && k == Total(cats[..i]) + j
      && Flatten(cats)[k] == Listed(cats[i].name, cats[i].recipes[j])
  {
    var init := cats[..|cats| - 1];
    FlattenLength(init);
    var last := |cats| - 1;
    if k < |Flatten(init)| {
      FlattenSource(init, k);
      var i, j :| 0 <= i < |init| && 0 <= j < |init[i].recipes|
        && k == Total(init[..i]) + j && Flatten(init)[k] == Listed(init[i].name, init[i].recipes[j]);
      assert init[..i] == cats[..i];
    } else {
      assert cats[..last] == init;
      var j := k - Total(init);
      assert Flatten(cats)[k] == Listed(cats[last].name, cats[last].recipes[j]);
    }
  }

  /** The recipes before category `i` plus those of `i` are the recipes up to and including `i`. */
  lemma TotalStep(cats: seq<Category>, i: nat)
    requires i < |cats|
    ensures Total(cats[..i + 1]) == Total(cats[..i]) + |cats[i].recipes|
  {
    assert cats[..i + 1][..i] == cats[..i];
  }

  lemma {:induction false} TotalPrefixMonotone(cats: seq<Category>, i: nat, i': nat)
    requires i <= i' <= |cats|
    ensures Total(cats[..i]) <= Total(cats[..i'])
    decreases i' - i
  {
    if i < i' {
      TotalStep(cats, i);
      TotalPrefixMonotone(cats, i + 1, i');
    }
  }

  /** Distinct (category, recipe) positions land at distinct listing positions: every recipe is listed once. */
  lemma FlattenPositionsDistinct(cats: seq<Category>, i: nat, j: nat, i': nat, j': nat)
    requires i < |cats| && j < |cats[i].recipes|
    requires i' < |cats| && j' < |cats[i'].recipes|
    requires (i, j) != (i', j')
    ensures Total(cats[..i]) + j != Total(cats[..i']) + j'
  {
    if i < i' {
      TotalStep(cats, i);
      TotalPrefixMonotone(cats, i + 1, i');
    } else if i' < i {
      TotalStep(cats, i');
      TotalPrefixMonotone(cats, i' + 1, i);
    }
  }

  /* ---------------------------------------------------------------------- */
  /* Search                                                                 */
  /* ---------------------------------------------------------------------- */

  /** Name, English name, ingredients and description, separated by single spaces. */
  function SearchableText(r: Recipe): string {
    r.name + " " + r.englishName + " " + Join(" ", r.ingredients) + " " + r.description
  }

  /** The lower-cased query occurs in the lower-cased searchable text. */
  predicate Matches(query: string, e: Listed) {
    Contains(Lower(SearchableText(e.recipe)), Lower(query))
  }

  function MatchesQuery(query: string): Listed -> bool {
    (e: Listed) => Matches(query, e)
  }

  /** What a search returns: everything for the empty query, the matching entries otherwise. */
  function SearchResult(cats: seq<Category>, query: string): seq<Listed> {
    if query == [] then Flatten(cats) else Filter(Flatten(cats), MatchesQuery(query))
  }

  /** The early return for the empty query agrees with the filter: every text contains "". */
  lemma SearchIsFilter(cats: seq<Category>, query: string)
    ensures SearchResult(cats, query) == Filter(Flatten(cats), MatchesQuery(query))
  {
    if query == [] {
      var all := Flatten(cats);
      forall k | 0 <= k < |all| ensures MatchesQuery(query)(all[k]) {
        ContainsEmpty(Lower(SearchableText(all[k].recipe)));
      }
      FilterKeepsAll(all, MatchesQuery(query));
    }
  }

  /** An entry is found exactly when it is listed and its text contains the query, ignoring case. */
  lemma SearchMembers(cats: seq<Category>, query: string)
    ensures forall e :: e in SearchResult(cats, query) <==> e in Flatten(cats) && Matches(query, e)
  {
    SearchIsFilter(cats, query);
    FilterMembers(Flatten(cats), MatchesQuery(query));
  }

  /** The result keeps listing order and is no longer than the listing. */
  lemma SearchOrder(cats: seq<Category>, query: string)
    ensures IsSubsequence(SearchResult(cats, query), Flatten(cats))
    ensures |SearchResult(cats, query)| <= Total(cats)
  {
    SearchIsFilter(cats, query);
    FilterSubsequence(Flatten(cats), MatchesQuery(query));
    FlattenLength(cats);
  }

  /** Searching is case-insensitive in the query. */
  lemma MatchesIgnoresQueryCase(query: string, e: Listed)
    ensures Matches(query, e) == Matches(Lower(query), e)
  {
    LowerIdempotent(query);
  }

  /** A query found in a piece of a text, ignoring case, is found in the text. */
  lemma LowerMiddle(a: string, x: string, c: string, q: string)
    requires Contains(Lower(x), q)
    ensures Contains(Lower(a + x + c), q)
  {
    LowerConcat(a, x);
    LowerConcat(a + x, c);
    ContainsInMiddle(Lower(a), Lower(x), Lower(c), q);
  }

  /** A query found, ignoring case, in the name or the English name finds the entry. */
  lemma NameMatchFinds(query: string, e: Listed)
    requires || Contains(Lower(e.recipe.name), Lower(query))
             || Contains(Lower(e.recipe.englishName), Lower(query))
    ensures Matches(query, e)
  {
    var r := e.recipe;
    var rest := " " + Join(" ", r.ingredients) + " " + r.description;
    assert SearchableText(r) == r.name + " " + r.englishName + rest;
    if Contains(Lower(r.name), Lower(query)) {
      LowerMiddle([], r.name, " " + r.englishName + rest, Lower(query));
      assert SearchableText(r) == [] + r.name + (" " + r.englishName + rest);
    } else {
      LowerMiddle(r.name + " ", r.englishName, rest, Lower(query));
    }
  }

  /** A query found, ignoring case, in the description finds the entry. */
  lemma DescriptionMatchFinds(query: string, e: Listed)
    requires Contains(Lower(e.recipe.description), Lower(query))
    ensures Matches(query, e)
  {
    var r := e.recipe;
    var before := r.name + " " + r.englishName + " " + Join(" ", r.ingredients) + " ";
    LowerMiddle(before, r.description, [], Lower(query));
    assert SearchableText(r) == before + r.description + [];
  }

  /** A query found, ignoring case, in one ingredient finds the entry. */
  lemma IngredientMatchFinds(query: string, e: Listed, k: nat)
    requires k < |e.recipe.ingredients| && Contains(Lower(e.recipe.ingredients[k]), Lower(query))
    ensures Matches(query, e)
  {
    var r := e.recipe;
    var ings := Join(" ", r.ingredients);
    JoinContainsPart(" ", r.ingredients, k);
    var a, c :| ings == a + r.ingredients[k] + c;
    LowerMiddle(a, r.ingredients[k], c, Lower(query));
    var before := r.name + " " + r.englishName + " ";
    LowerMiddle(before, ings, " " + r.description, Lower(query));
    assert SearchableText(r) == (before + ings) + " " + r.description;
    assert (before + ings) + " " + r.description == before + ings + (" " + r.description);
  }

  /** The converse fails: a query may straddle two fields and still find the entry. */
  lemma MatchAcrossFields()
    ensures var e := Listed("curries", Recipe("x", "ab", "cd", [], "", "", "", "", []));
      Matches("b c", e) && !Contains(Lower("ab"), "b c") && !Contains(Lower("cd"), "b c")
  {
    var e := Listed("curries", Recipe("x", "ab", "cd", [], "", "", "", "", []));
    assert SearchableText(e.recipe) == "ab cd  ";
    assert Lower("ab cd  ") == "ab cd  ";
    assert Lower("b c") == "b c";
    assert "ab cd  "[1..] == "b cd  ";
    assert "b c" <= "b cd  ";
  }

  /* ---------------------------------------------------------------------- */
  /* The selections of the search page and the favorites page              */
  /* ---------------------------------------------------------------------- */

  /** The level of the difficulty selector that turns the filter off. */
  const AllLevels: string := "All"

  function HasDifficulty(level: string): Listed -> bool {
    (e: Listed) => e.recipe.difficulty == level
  }

  /** The search page's second step: keep the entries of the chosen difficulty, or all for "All". */
  function DifficultyFiltered(rs: seq<Listed>, level: string): seq<Listed> {
    if level == AllLevels then rs else Filter(rs, HasDifficulty(level))
  }

  /** The difficulty filter keeps exactly the entries with that level, in order. */
  lemma DifficultyMembers(rs: seq<Listed>, level: string)
    requires level != AllLevels
    ensures forall e :: e in DifficultyFiltered(rs, level) <==> e in rs && e.recipe.difficulty == level
    ensures IsSubsequence(DifficultyFiltered(rs, level), rs)
  {
    FilterMembers(rs, HasDifficulty(level));
    FilterSubsequence(rs, HasDifficulty(level));
  }

  /** What the search page shows: the listing filtered by the query and then by the difficulty. */
  function SearchPageResult(cats: seq<Category>, query: string, level: string): seq<Listed> {
    DifficultyFiltered(SearchResult(cats, query), level)
  }

  /** Search then difficulty filter is one filter by both predicates. */
  lemma SearchPageIsOneFilter(cats: seq<Category>, query: string, level: string)
    requires level != AllLevels
    ensures SearchPageResult(cats, query, level)
      == Filter(Flatten(cats), Both(MatchesQuery(query), HasDifficulty(level)))
    ensures forall e :: (e in SearchPageResult(cats, query, level)
      <==> e in Flatten(cats) && Matches(query, e) && e.recipe.difficulty == level)
  {
    SearchIsFilter(cats, query);
    FilterFilter(Flatten(cats), MatchesQuery(query), HasDifficulty(level));
    FilterMembers(Flatten(cats), Both(MatchesQuery(query), HasDifficulty(level)));
  }

  /** The favorites page's selection: the entry's id is one of the favorites. */
  function InFavorites(favorites: seq<string>): Listed -> bool {
    (e: Listed) => e.recipe.id in favorites
  }

  /* ---------------------------------------------------------------------- */
  /* The add-recipe form                                                    */
  /* ---------------------------------------------------------------------- */

  /** The fields of the add-recipe form, as typed. */
  datatype RecipeForm = RecipeForm(
    teluguName: string,
    englishName: string,
    category: string,
    difficulty: string,
    cookingTime: string,
    servings: string,
    description: string,
    ingredients: string,
    instructions: string)

  /** Every field marked required holds something; the description may be empty. */
  predicate FormComplete(f: RecipeForm) {
    && f.teluguName != []
    && f.englishName != []
    && f.cookingTime != []
    && f.servings != []
    && f.ingredients != []
    && f.instructions != []
  }

  /** Spaces become underscores. */
  function Underscored(s: string): (r: string)
    ensures |r| == |s| && ' ' !in r
    ensures forall k :: 0 <= k < |s| ==> r[k] == (if s[k] == ' ' then '_' else s[k])
  {
    seq(|s|, k requires 0 <= k < |s| => if s[k] == ' ' then '_' else s[k])
  }

  /** The id of a new recipe: its name with spaces as underscores, lower-cased, then `_` and the count of recipes before it. */
  function RecipeId(name: string, count: nat): string {
    Lower(Underscored(name)) + "_" + DecimalString(count)
  }

  /** An id has no space in it, and ends in the count it was built from. */
  lemma RecipeIdShape(name: string, count: nat)
    ensures ' ' !in RecipeId(name, count)
    ensures var id := RecipeId(name, count); var d := DecimalString(count);
      |id| == |name| + 1 + |d| && id[|name|] == '_' && id[|name| + 1..] == d
  {
    var u := Underscored(name);
    var id := RecipeId(name, count);
    var d := DecimalString(count);
    forall k | 0 <= k < |id| ensures id[k] != ' ' {
      if k < |name| {
        assert id[k] == LowerChar(u[k]);
        assert u[k] != ' ';
      } else if k > |name| {
        assert id[k] == d[k - |name| - 1];
        assert IsDigit(d[k - |name| - 1]);
      }
    }
    assert id[|name| + 1..] == d;
  }

  /** The same name added at two different counts gets two different ids. */
  lemma RecipeIdDistinctCounts(name: string, m: nat, n: nat)
    requires m != n
    ensures RecipeId(name, m) != RecipeId(name, n)
  {
    RecipeIdShape(name, m);
    RecipeIdShape(name, n);
    if RecipeId(name, m) == RecipeId(name, n) {
      DecimalInjective(m, n);
    }
  }

  /** Two different names can still collide: ids are not unique by construction. */
  lemma RecipeIdsCollide()
    ensures RecipeId("Ab c", 3) == RecipeId("ab_c", 3)
  {
    assert Underscored("Ab c") == "Ab_c";
    assert Underscored("ab_c") == "ab_c";
    assert Lower("Ab_c") == "ab_c";
    assert Lower("ab_c") == "ab_c";
  }

  /** Each line with the whitespace at both ends removed. */
  function StrippedLines(lines: seq<string>): (r: seq<string>)
    ensures |r| == |lines|
    ensures forall m :: 0 <= m < |lines| ==> r[m] == Strip(lines[m])
  {
    seq(|lines|, m requires 0 <= m < |lines| => Strip(lines[m]))
  }

  const NotBlank: string -> bool := (s: string) => s != []

  /** A multi-line text field read as a list: the stripped lines that are not empty, in order. */
  function ParseLines(text: string): seq<string> {
    Filter(StrippedLines(SplitLines(text)), NotBlank)
  }

  /** Every item is non-empty, a single line, and has no whitespace at either end. */
  lemma ParseLinesItems(text: string)
    ensures forall x :: x in ParseLines(text) ==>
      && x != [] && '\n' !in x
      && !IsSpace(x[0]) && !IsSpace(x[|x| - 1])
  {
    var lines := SplitLines(text);
    FilterMembers(StrippedLines(lines), NotBlank);
    forall x | x in ParseLines(text) ensures x != [] && '\n' !in x {
      var m :| 0 <= m < |lines| && StrippedLines(lines)[m] == x;
      if '\n' in x {
        StripChars(lines[m], '\n');
      }
    }
  }

  /** A text of whitespace parses to no items. */
  lemma ParseLinesAllSpace(text: string)
    requires AllSpace(text)
    ensures ParseLines(text) == []
  {
    var lines := SplitLines(text);
    var stripped := StrippedLines(lines);
    SplitLinesAllSpace(text);
    forall m | 0 <= m < |lines| ensures !NotBlank(stripped[m]) {
      StripAllSpace(lines[m]);
    }
    FilterKeepsNone(stripped, NotBlank);
  }

  /** A text with a non-space character parses to at least one item. */
  lemma ParseLinesNotAllSpace(text: string, i: nat)
    requires i < |text| && !IsSpace(text[i])
    ensures ParseLines(text) != []
  {
    var lines := SplitLines(text);
    var stripped := StrippedLines(lines);
    SplitLinesCover(text, i);
    var m :| 0 <= m < |lines| && text[i] in lines[m];
    StripNonEmpty(lines[m], text[i]);
    FilterKeepsOne(stripped, NotBlank, m);
  }

  /**
   * A text parses to no items exactly when it is all whitespace. Such a text
   * still passes the required-field check, which only asks for a non-empty
   * string.
   */
  lemma ParseLinesEmptyIff(text: string)
    ensures ParseLines(text) == [] <==> AllSpace(text)
  {
    if AllSpace(text) {
      ParseLinesAllSpace(text);
    } else {
      var i :| 0 <= i < |text| && !IsSpace(text[i]);
      ParseLinesNotAllSpace(text, i);
    }
  }

  /** The record the form builds when `count` recipes are already stored. */
  function BuildRecipe(f: RecipeForm, count: nat): Recipe {
    Recipe(
      RecipeId(f.teluguName, count),
      f.teluguName,
      f.englishName,
      ParseLines(f.ingredients),
      f.cookingTime,
      f.difficulty,
      f.servings,
      f.description,
      ParseLines(f.instructions))
  }

  /* ---------------------------------------------------------------------- */
  /* Appending to a category                                                */
  /* ---------------------------------------------------------------------- */

  /** Where the category called `name` sits, or `|cats|` when there is none. */
  function CategoryIndex(cats: seq<Category>, name: string): (k: nat)
    ensures k <= |cats|
    ensures k < |cats| ==> cats[k].name == name
    ensures forall i :: 0 <= i < k ==> cats[i].name != name
  {
    if cats == [] then 0
    else if cats[0].name == name then 0
    else 1 + CategoryIndex(cats[1..], name)
  }

  /** The recipes stored under `name`, none if the category is absent. */
  function RecipesOf(cats: seq<Category>, name: string): seq<Recipe> {
    var k := CategoryIndex(cats, name);
    if k < |cats| then cats[k].recipes else []
  }

  /** The map after `r` is appended under `name`, the category being created empty at the end if absent. */
  function WithRecipe(cats: seq<Category>, name: string, r: Recipe): seq<Category> {
    var k := CategoryIndex(cats, name);
    var cats' := if k < |cats| then cats else cats + [Category(name, [])];
    cats'[k := Category(name, cats'[k].recipes + [r])]
  }

  /** The recipes of a category under a distinct-name map are found by its name. */
  lemma RecipesOfAt(cats: seq<Category>, i: nat)
    requires DistinctNames(cats) && i < |cats|
    ensures CategoryIndex(cats, cats[i].name) == i
    ensures RecipesOf(cats, cats[i].name) == cats[i].recipes
  {
  }

  /** Appending keeps the names distinct and the existing categories where they were. */
  lemma WithRecipeShape(cats: seq<Category>, name: string, r: Recipe)
    requires DistinctNames(cats)
    ensures var cats' := WithRecipe(cats, name, r);
      && DistinctNames(cats')
      && (forall i :: 0 <= i < |cats| ==> cats'[i].name == cats[i].name)
      && |cats'| == (if CategoryIndex(cats, name) < |cats| then |cats| else |cats| + 1)
  {
  }

  /** Appending adds `r` at the end of its own category. */
  lemma WithRecipeAppends(cats: seq<Category>, name: string, r: Recipe)
    requires DistinctNames(cats)
    ensures RecipesOf(WithRecipe(cats, name, r), name) == RecipesOf(cats, name) + [r]
  {
    WithRecipeShape(cats, name, r);
    RecipesOfAt(WithRecipe(cats, name, r), CategoryIndex(cats, name));
  }

  /** Appending leaves every other category alone. */
  lemma WithRecipeOthers(cats: seq<Category>, name: string, r: Recipe, other: string)
    requires DistinctNames(cats) && other != name
    ensures RecipesOf(WithRecipe(cats, name, r), other) == RecipesOf(cats, other)
  {
    var cats' := WithRecipe(cats, name, r);
    WithRecipeShape(cats, name, r);
    var k := CategoryIndex(cats, other);
    if k < |cats| {
      RecipesOfAt(cats', k);
    }
  }

  /** Replacing one category's list changes the total by the difference in its length. */
  lemma {:induction false} TotalUpdate(cats: seq<Category>, k: nat, c: Category)
    requires k < |cats|
    ensures Total(cats[k := c]) == Total(cats) - |cats[k].recipes| + |c.recipes|
  {
    var cats' := cats[k := c];
    var n := |cats| - 1;
    if k < n {
      TotalUpdate(cats[..n], k, c);
      assert cats'[..n] == cats[..n][k := c];
    } else {
      assert cats'[..n] == cats[..n];
    }
  }

  /** Appending a recipe grows the total by one. */
  lemma WithRecipeTotal(cats: seq<Category>, name: string, r: Recipe)
    ensures Total(WithRecipe(cats, name, r)) == Total(cats) + 1
  {
    var k := CategoryIndex(cats, name);
    if k < |cats| {
      TotalUpdate(cats, k, Category(name, cats[k].recipes + [r]));
    } else {
      var cats' := cats + [Category(name, [])];
      assert cats'[..|cats|] == cats;
      TotalUpdate(cats', k, Category(name, [r]));
    }
  }

  /** The new recipe shows up in the listing, tagged with its category, and the listing grows by one. */
  lemma WithRecipeListed(cats: seq<Category>, name: string, r: Recipe)
    ensures Listed(name, r) in Flatten(WithRecipe(cats, name, r))
    ensures |Flatten(WithRecipe(cats, name, r))| == |Flatten(cats)| + 1
  {
    var k := CategoryIndex(cats, name);
    var cats' := WithRecipe(cats, name, r);
    var j := |cats'[k].recipes| - 1;
    FlattenAt(cats', k, j);
    WithRecipeTotal(cats, name, r);
    FlattenLength(cats);
    FlattenLength(cats');
  }

  /* ---------------------------------------------------------------------- */
  /* Seed data                                                              */
  /* ---------------------------------------------------------------------- */

  /** The map a first run starts from: three categories of one recipe each. */
  function DefaultRecipes(): (cats: seq<Category>)
    ensures |cats| == 3 && DistinctNames(cats)
    ensures forall i :: 0 <= i < 3 ==> |cats[i].recipes| == 1
  {
    [
      Category("biryanis", [
        Recipe(
          "hyderabadi_biryani",
          "హైదరాబాదీ బిర్యానీ",
          "Hyderabadi Biryani",
          ["బాస్మతి అన్నం", "మటన్", "యోగర్ట్", "ఉల్లిపాయలు", "మసాలా పౌడర్"],
          "2 గంటలు",
          "కష్టం",
          "4-6 మంది",
          "హైదరాబాద్ యొక్క ప్రసిద్ధ బిర్యానీ",
          [
            "బాస్మతి అన్నాన్ని నానబెట్టండి",
            "మటన్\U{200C}ను మసాలాలతో మెరినేట్ చేయండి",
            "అన్నం వేయించండి",
            "లేయర్లుగా అమర్చండి"
          ])
      ]),
      Category("curries", [
        Recipe(
          "gongura_mutton",
          "గోంగూర మటన్",
          "Gongura Mutton",
          ["మటన్", "గోంగూర ఆకులు", "ఉల్లిపాయలు", "వెల్లుల్లి"],
          "45 నిమిషాలు",
          "మధ్యమం",
          "4 మంది",
          "ఆంధ్రప్రదేశ్ యొక్క ప్రత్యేక వంటకం",
          [
            "మటన్\U{200C}ను కట్ చేయండి",
            "గోంగూర ఆకులను వేయించండి",
            "మసాలాలు కలపండి",
            "ఉడికించండి"
          ])
      ]),
      Category("sweets", [
        Recipe(
          "ariselu",
          "అరిసెలు",
          "Ariselu",
          ["బియ్యం పిండి", "గుడ్డు", "నువ్వులు", "నూనె"],
          "1 గంట",
          "మధ్యమం",
          "20 ముక్కలు",
          "పండుగల ప్రత్యేక తీపి వంటకం",
          [
            "బియ్యం పిండిని కలపండి",
            "గుడ్డుతో కలపండి",
            "నువ్వులు వేయండి",
            "నూనెలో వేయించండి"
          ])
      ])
    ]
  }
}
