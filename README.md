# Telugu culinary app: recipe store, search and favorites

This project models the data core of the Telugu culinary web app, `main.py`.
The core is the application object `TeluguCulinaryApp` and the data steps of
three pages.

- **Recipe store.** The object holds a category map in memory. The map goes
  from a category name to an ordered list of recipe records, and categories
  keep their insertion order. `get_all_recipes` flattens the map and tags each
  record with its category. `search_recipes` keeps the recipes whose
  lower-cased text contains the lower-cased query. That text is the name,
  the English name, the ingredients joined by spaces, and the description.
- **Favorites.** The object also holds a favorites list of recipe ids. Adding
  appends an id that is absent; removing deletes the first occurrence of an
  id that is present. Both report whether the list changed, and each change
  rewrites the favorites file.
- **Pages.** The search page narrows the search results to one difficulty
  level unless "All" is chosen. The favorites page shows the listed recipes
  whose id is a favorite. The add-recipe page checks the required fields. It
  then builds the record: the id comes from the name and the current recipe
  count, and ingredients and instructions are the stripped non-empty lines.
  Finally it appends the record to its category, creating the category if
  needed, and rewrites the recipes file.

The files are:

- `wrappers.dfy`: `Option`.
- `text.dfy`: the string operations, over `seq<char>`. These are lower-casing,
  substring search, `join`, `split('\n')`, `strip()` and decimal rendering.
- `lists.dfy`: order-preserving filter, subsequence, duplicate-freedom and
  `list.remove`.
- `recipes.dfy`: records, the category map as a sequence of uniquely named
  categories, flattening, search, the page selections, the add-recipe form
  and the seed data.
- `favorites.dfy`: the favorites list that adding and removing leave behind.
- `app.dfy`: the class `CulinaryApp` with its fields, which the methods update
  in place. It also holds the three page handlers as methods over a
  `CulinaryApp`.

In these places the code behaves differently from what a reader might expect:

- The comment at main.py:130 describes the search as looking in the name,
  the English name, the ingredients and the description. The code matches the query against the
  concatenated text of those fields, not field by field. A query can therefore straddle two fields and still match
  (`Recipes.MatchAcrossFields`). A query found inside any single field always
  matches.
- Adding only appends an absent id, but the code never makes the favorites
  list duplicate-free when it loads it. The
  model proves that add and remove keep a duplicate-free list duplicate-free.
  It does not assume that the loaded list is duplicate-free.
- A required multi-line field that holds only whitespace passes the
  required-field check, which only asks for a non-empty string. The field
  then yields an empty list (`Recipes.ParseLinesEmptyIff`).
- Two different names can produce the same recipe id
  (`Recipes.RecipeIdsCollide`). The store does not check ids for uniqueness,
  although favorites and buttons refer to recipes by id alone.

## Model

| member | source | states |
|---|---|---|
| `App.CulinaryApp.constructor` | main.py:21-41 | The map is the stored one, or the seed data when the recipes file is absent. In that case the seed data is written out at once. Favorites are the stored list, or empty when that file is absent, and a missing favorites file stays missing. |
| `App.CulinaryApp.SaveRecipes` | main.py:43-46 | The recipes file afterwards holds the current map. |
| `App.CulinaryApp.SaveFavorites` | main.py:48-51 | The favorites file afterwards holds the current list. |
| `App.CulinaryApp.AllRecipes` | main.py:112-119 | The nested loops return exactly the flattened listing of the current map, proved with loop invariants. |
| `App.CulinaryApp.SearchRecipes` | main.py:121-141 | The empty query returns the whole listing. Otherwise the loop returns exactly the listed entries whose lower-cased text contains the lower-cased query, in listing order. |
| `App.CulinaryApp.AddToFavorites` | main.py:143-149 | The result is true exactly when the id was absent. The id is appended only then, and only then is the file rewritten. The id is a favorite afterwards. |
| `App.CulinaryApp.RemoveFromFavorites` | main.py:151-157 | The result is true exactly when the id was present. Its first occurrence is deleted and the file rewritten only then. On a duplicate-free list the id is no longer a favorite and the list stays duplicate-free. |
| `App.CulinaryApp.IsFavorite` | main.py:159-161 | An id is a favorite exactly when it occurs in the favorites list. Duplicates are allowed. |
| `App.SearchPage` | main.py:264-268 | The page shows exactly the listed entries that match the query and have the chosen difficulty ("All" keeps every level), in listing order. |
| `App.FavoritesPage` | main.py:282-289 | The page equals the listing filtered by membership of the id in the favorites list. So it shows exactly those entries, in listing order, each as often as it is listed. With no favorites it shows nothing. |
| `App.AddRecipePage` | main.py:326-344 | An incomplete form changes nothing. A complete one appends the record built with the prior total count to its category and rewrites the file. The record is then listed under its category, and the listing grows by one. |
| `Recipes.Flatten` | main.py:112-119 | The listing is every category's recipes in map order, each tagged with its category's name, in the order they were stored. |
| `Recipes.FlattenLength` | main.py:112-119 | The listing has as many entries as there are recipes in all categories. |
| `Recipes.FlattenAt` | main.py:115-118 | Recipe `j` of category `i` is at position `Total(cats[..i]) + j`, tagged with the name of category `i`. |
| `Recipes.FlattenSource` | main.py:115-118 | Every position of the listing holds a recipe of some category, tagged with that category, at the position `FlattenAt` gives. |
| `Recipes.FlattenPositionsDistinct` | main.py:115-118 | Distinct (category, recipe) pairs get distinct positions, so every stored recipe is listed exactly once. |
| `Recipes.SearchableText` | main.py:131-136 | The text searched is the name, the English name, the ingredients joined by single spaces, and the description, separated by single spaces. |
| `Recipes.Matches` | main.py:126-138 | An entry matches when its lower-cased searchable text contains the lower-cased query. |
| `Recipes.SearchResult` | main.py:121-141 | A search returns the whole listing for the empty query, and otherwise the listed entries that match, in listing order. |
| `Recipes.SearchIsFilter` | main.py:123-141 | The early return for the empty query gives the same result as the filter, because every text contains the empty string. |
| `Recipes.SearchMembers` | main.py:126-139 | An entry is in the search result exactly when it is listed and its lower-cased text contains the lower-cased query. |
| `Recipes.SearchOrder` | main.py:127-141 | The search result is an order-preserving subsequence of the listing and no longer than the total count. |
| `Recipes.MatchesIgnoresQueryCase` | main.py:126 | Lower-casing the query first does not change whether an entry matches. |
| `Recipes.NameMatchFinds` | main.py:131-133 | A query found, ignoring case, in the name or the English name makes the entry match. |
| `Recipes.IngredientMatchFinds` | main.py:134 | A query found, ignoring case, in any one ingredient makes the entry match. |
| `Recipes.DescriptionMatchFinds` | main.py:135 | A query found, ignoring case, in the description makes the entry match. |
| `Recipes.MatchAcrossFields` | main.py:131-138 | A query can match across the boundary between the name and the English name without occurring in either field. |
| `Recipes.DifficultyFiltered` | main.py:267-268 | "All" keeps the search results unchanged. Any other level keeps, in order, the results with exactly that difficulty. |
| `Recipes.DifficultyMembers` | main.py:267-268 | For a level other than "All", the difficulty filter keeps exactly the entries with the chosen level, in order. |
| `Recipes.SearchPageIsOneFilter` | main.py:264-268 | For a level other than "All", search followed by the difficulty filter equals one filter by both predicates, so it keeps exactly the entries satisfying both. |
| `Recipes.SearchPageResult` | main.py:264-268 | The search page shows the search results for the query, narrowed by the difficulty filter. |
| `Recipes.FormComplete` | main.py:327 | The form is complete when the Telugu name, English name, cooking time, servings, ingredients and instructions are all non-empty. The description may be empty. |
| `Recipes.Underscored` | main.py:329 | Spaces become underscores and nothing else changes, so no space is left. |
| `Recipes.RecipeId` | main.py:329 | The id is the name with spaces turned into underscores and lower-cased, then `_`, then the count in decimal. |
| `Recipes.RecipeIdShape` | main.py:329 | The id has no space. It is as long as the name plus one, plus the digits. At the name's length it has `_`, and after that the decimal count. |
| `Recipes.RecipeIdDistinctCounts` | main.py:329 | The same name added at two different counts gets two different ids. |
| `Recipes.RecipeIdsCollide` | main.py:329 | Two different names give the same id at the same count. |
| `Recipes.ParseLines` | main.py:332 | A multi-line field becomes its lines, each stripped, with the empty ones dropped, in order. |
| `Recipes.ParseLinesItems` | main.py:332 | Every parsed item is non-empty, holds no line break, and has no whitespace at either end. |
| `Recipes.ParseLinesEmptyIff` | main.py:327-337 | A field parses to no items exactly when it is all whitespace. |
| `Recipes.BuildRecipe` | main.py:328-338 | The record takes its id from the name and the given count. Ingredients and instructions are the parsed lines of their fields. Every other field is copied from the form unchanged. |
| `Recipes.WithRecipe` | main.py:341-343 | The recipe is appended to the list of the category with that name. If no category has that name, an empty one is first added at the end. |
| `Recipes.CategoryIndex` | main.py:341-343 | The position of the first category with the given name, or the number of categories when none has it. Every earlier category has a different name. |
| `Recipes.RecipesOf` | main.py:341-343 | The recipes stored under a name, or none when no category has that name. |
| `Recipes.WithRecipeShape` | main.py:341-343 | Appending keeps category names distinct and existing categories in place. An absent category is added as the last one. |
| `Recipes.WithRecipeAppends` | main.py:341-343 | The recipe goes at the end of its category's list; an absent category counts as empty. |
| `Recipes.WithRecipeOthers` | main.py:341-343 | Every other category's list is unchanged. |
| `Recipes.WithRecipeTotal` | main.py:341-343 | The total recipe count grows by exactly one. |
| `Recipes.WithRecipeListed` | main.py:341-343 | The new recipe appears in the listing, tagged with its category, and the listing grows by one. |
| `Recipes.DefaultRecipes` | main.py:53-110 | The seed map has three distinctly named categories with one recipe each. |
| `Favorites.WithFavorite` | main.py:145-146 | Adding appends an absent id at the end and leaves the list as it is when the id is already there. |
| `Favorites.WithoutFavorite` | main.py:153-154 | Removing deletes the first occurrence of a present id and leaves the list as it is when the id is absent. |
| `Favorites.AddFavoriteMembers` | main.py:143-149 | After adding, the favorites are exactly the old ones plus the id. |
| `Favorites.AddFavoriteIdempotent` | main.py:145-146 | Adding twice equals adding once. |
| `Favorites.AddFavoriteNoDuplicates` | main.py:145-146 | Adding keeps a duplicate-free list duplicate-free. |
| `Favorites.RemoveFavoriteEffect` | main.py:151-157 | On a duplicate-free list, removal takes the id out and keeps every other id. The others keep their relative order and the list stays duplicate-free. |
| `Favorites.AddThenRemove` | main.py:143-157 | Removing an id that was just added gives the original list back. |
| `Favorites.RemoveThenAdd` | main.py:143-157 | On a duplicate-free list, re-adding an id just removed gives the same ids, with that id moved to the end. |
| `Lists.RemoveFirst` | main.py:154 | `list.remove` deletes the element at the first index holding the value and keeps the rest in order. |
| `Lists.RemoveFirstMultiset` | main.py:154 | Exactly one copy of the value is removed. |
| `Lists.RemoveFirstNoDuplicates` | main.py:154 | On a duplicate-free list the value is gone afterwards and the list stays duplicate-free. |
| `Lists.Filter` | main.py:268 | A list comprehension with a condition keeps, in order, the elements that satisfy it. The same comprehension shape is used at main.py:286-289, 332 and 337. |
| `Lists.FilterMembers` | main.py:286-289 | A list comprehension with a condition keeps exactly the elements that satisfy it. |
| `Lists.FilterSubsequence` | main.py:286-289 | A list comprehension with a condition keeps the order of what it keeps. |
| `Lists.FilterFilter` | main.py:264-268 | Filtering twice is filtering once by the conjunction. |
| `Text.Lower` | main.py:126 | Lower-casing keeps the length and maps every character by the ASCII case mapping. The same call is used at main.py:136 and 329. |
| `Text.Contains` | main.py:138 | Python's `in` on two strings: the pattern is a prefix of the text or of one of its suffixes. |
| `Text.ContainsIff` | main.py:138 | Python's substring test holds exactly when the pattern occurs at some position. |
| `Text.Join` | main.py:134 | `' '.join` puts the separator between consecutive parts. No parts give the empty string, and one part gives itself. |
| `Text.JoinContainsPart` | main.py:134 | Every part occurs in the joined string. |
| `Text.SplitLines` | main.py:332 | `split('\n')` yields at least one piece and no piece holds a line break. |
| `Text.JoinSplitLines` | main.py:332 | Joining the pieces of `split('\n')` with line breaks gives the text back. |
| `Text.Strip` | main.py:332 | `strip()` leaves a string that is empty or starts and ends with a non-space character. |
| `Text.StripNonEmpty` | main.py:332 | A line with a non-space character does not strip to nothing. |
| `Text.DecimalString` | main.py:329 | A count renders as decimal digits with no leading zero. |
| `Text.DecimalRoundTrip` | main.py:329 | Reading the rendered digits back gives the count. |

## Left out

- JSON encoding, the file system and the data directory are not modelled. Each file is the value last written to it, or `None` while it is absent. A file holding malformed JSON raises in the code. A file holding JSON of the wrong shape either raises or behaves in ways the model does not capture. A favorites file holding a JSON string, for example, makes the favorite tests at main.py:161 and 288 substring tests. None of these cases is modelled.
- `App.CulinaryApp.constructor` requires the stored map to have distinct category names. That is what a JSON object loaded into a Python dict gives, so no loadable file is excluded.
- `App.CulinaryApp.AllRecipes` returns tagged copies and does not write the category into the stored records. The code writes it into them in place, so their later saves carry a "category" key, and its results share the stored dictionaries. That aliasing is not modelled.
- `Text.Lower` lower-cases ASCII letters only. Python's full Unicode case mapping is not modelled. Telugu script has no case, so Telugu text is unaffected.
- `Text.IsSpace` lists the characters Python's `str.isspace` accepts. A change to that set in a future Python version is not tracked.
- Records are total: every record has every field. The code has two other outcomes for a record loaded from a hand-edited file that lacks a field, and neither is modelled.
  - A record that lacks only `difficulty` is dropped silently by the search page when a level is chosen. `r.get('difficulty')` gives `None` there, and the search itself never reads that field. It raises `KeyError` only when its card is shown, which reads `recipe['difficulty']`.
  - A record that lacks a field the search reads (name, English name, ingredients or description), or its id, raises `KeyError` in the search or the page that reads it.
- The home page's counts, all rendering, buttons, reruns and styling are UI glue and are not modelled.
- The chatbot page, with its session history and its call into `dify_client.py`, is not modelled. It only passes text to an external service.
- `setup.py` is not part of this model. It only runs installation commands and writes deployment files.
