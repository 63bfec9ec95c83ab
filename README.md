# lipucook, modelled in Dafny

lipucook is a recipe picker. A single Next.js page (`page.tsx`) loads three
option lists from a Flask service: vegetables, proteins and flavors. The
user picks one of each, by hand or with the dice button. As soon as all
three are set, the page asks the service for a matching recipe, shows the
first one, and lets the user like or dislike it. The service (`service.py`)
keeps recipes and comments in SQLite. The seeding script (`init_db.py`)
fills the tables from data files, in batches.

This project models three parts:

- **The page's state machine.** `AppState` and the pure updaters the
  handlers pass to `setState` are in module `PageState`. The component is
  class `PageComponent.Component`. Its four state cells are fields. Each
  handler is a method that applies its `setState` steps in order. Each
  awaited request's outcome (a success payload or a failure) is an input.
  The lookup effect is a method: it compares the selection with the
  dependencies React remembers from its last run.
- **The endpoints.** Module `Service` models like, dislike, add-comment,
  find-recipes and the comment filter. They work over class
  `Models.Database`, whose tables are sequences of rows. Each endpoint
  answers with an `Api.Response`, a status and a JSON body.
- **The seeding routine.** Module `InitDb` models it. The data files'
  parsed contents are inputs. So are the random draws behind each generated
  recipe id.

Module `Decimal` covers how an id travels between the two sides. The page
writes a numeric id into the query string. The service reads it back as a
string. SQLite compares it with an INTEGER column. Module `EndToEnd` uses
this to connect a page lookup to the service's answer.

## Model

| member | source | states |
|---|---|---|
| `Decimal.Show` | lipucook_frontend/src/app/page.tsx:113-117 | a numeric query argument is a non-empty digit string with no leading zero (except 0 itself) |
| `Decimal.Parse` | lipucook_backend/service.py:124-128 | the model reads a query argument as a number exactly when it is a non-empty digit string, and then as the number it spells |
| `Decimal.ParseShow` | lipucook_frontend/src/app/page.tsx:112-118 | the service reads back exactly the id the page wrote into the query string |
| `Models.Database.constructor` | lipucook_backend/init_db.py:21 | `create_all` on a new database gives empty tables and no commits |
| `Service.FindRecipe` | lipucook_backend/service.py:25-27 | the primary-key lookup finds the row holding the id, or reports that no row holds it |
| `Service.LikeRecipe` | lipucook_backend/service.py:23-31 | an unknown id gives 404 and changes nothing; a known id's `likes` goes up by exactly one, its `dislikes` and every other row stay the same, and the new count is returned |
| `Service.DislikeRecipe` | lipucook_backend/service.py:34-42 | the same as liking, but for `dislikes`; `likes` is unchanged |
| `Service.NextCommentId` | lipucook_backend/service.py:53-57 | a new comment's id is 1 in an empty table and otherwise one more than the largest id, so it is new |
| `Service.AddComment` | lipucook_backend/service.py:45-57 | missing or empty text gives 400 and stores nothing; otherwise exactly one comment is appended under the given recipe id, which is not checked against the recipes, and its id is returned |
| `Service.ColumnMatches` | lipucook_backend/service.py:124-128 | comparing a nullable INTEGER column with a text argument: a NULL or negative stored value never matches, and a matching argument is a digit string |
| `Service.ColumnMatchesShow` | lipucook_backend/service.py:124-128 | a stored id always matches its own decimal spelling |
| `Service.Matching` | lipucook_backend/service.py:124-128 | the filter returns exactly the rows whose vegetable, protein and flavor ids all equal the arguments |
| `Service.MatchingAppend` | lipucook_backend/service.py:124-128 | the filter keeps table order |
| `Service.MatchingFirst` | lipucook_backend/service.py:124-128 | the first recipe returned is the first matching row of the table |
| `Service.RecipeJsonsOf` | lipucook_backend/service.py:133-143 | each returned recipe is its row cut down to five fields, in the same order |
| `Service.FindRecipes` | lipucook_backend/service.py:111-143 | the arguments are checked in the order vegetable, protein, flavor, and only the first missing or empty one is reported as 400 ("0" counts as given); after that the answer is 404 exactly when no row matches, so every 200 answer carries a non-empty `recipes` list of the matching rows |
| `Service.CommentsOf` | lipucook_backend/service.py:151-152 | the comment filter keeps a comment exactly when it is stored under the requested recipe id |
| `Service.CommentsOfAppend` | lipucook_backend/service.py:151-152 | the comment filter keeps table order and multiplicity: filtering two runs of rows is filtering each |
| `Service.GetComments` | lipucook_backend/service.py:146-164 | the answer is 200 and lists, in table order, the id and text of every comment stored under the requested recipe id and of no other |
| `InitDb.GenerateRecipeId` | lipucook_backend/init_db.py:16-17 | a generated recipe id is 7 characters, each from A-Z or 0-9 |
| `InitDb.SeededRecipes` | lipucook_backend/init_db.py:59-74 | each sheet row gives one recipe, in row order, with a well-formed generated id, zero likes and dislikes, links `"{}"`, and the row's name, text and three ids |
| `InitDb.BatchesCover` | lipucook_backend/init_db.py:26-30 | the slices `data[i:i+batch_size]` over `range(0, n, batch_size)` hold every record exactly once, in input order |
| `InitDb.BatchesBounded` | lipucook_backend/init_db.py:26-30 | every batch is non-empty and holds at most `batch_size` records |
| `InitDb.BatchesCount` | lipucook_backend/init_db.py:26-30 | there are ceil(n / batch_size) batches: the least k with n <= k * batch_size |
| `InitDb.SeedVegRaw` | lipucook_backend/init_db.py:24-32 | a non-empty vegetable table is left alone with no commit; an empty one receives the data in order, with one commit per batch; no other table changes |
| `InitDb.SeedProteinRaw` | lipucook_backend/init_db.py:35-43 | the same for the protein table |
| `InitDb.SeedFlavorRaw` | lipucook_backend/init_db.py:46-54 | the same for the flavor table |
| `InitDb.SeedRecipes` | lipucook_backend/init_db.py:57-76 | a non-empty recipe table is left alone; an empty one receives the seeded recipes in row order, with one commit per batch |
| `InitDb.InitDb` | lipucook_backend/init_db.py:19-78 | each table is filled from its file only if it was empty; comments are untouched; commits are the sum of the batches of the tables that were filled |
| `InitDb.InitDbDefault` | lipucook_backend/init_db.py:19-81 | the script's own call seeds exactly as `InitDb` does, with batches of 1000 |
| `InitDb.InitDbTwice` | lipucook_backend/init_db.py:19-78 | running the routine twice on the same files leaves the tables and the commit count as one run does, whatever ids the second run draws |
| `PageState.StartLoading` | lipucook_frontend/src/app/page.tsx:82 | the updater that opens a load or a lookup turns loading on and clears the error, and changes nothing else |
| `PageState.FindIndex` | lipucook_frontend/src/app/page.tsx:114-116 | `findIndex` gives the first position holding the name, or -1 exactly when the name is absent |
| `PageState.ResolveId` | lipucook_frontend/src/app/page.tsx:114-116 | the id sent for a selection is its first position plus one, and 0 exactly when the name is absent, so it lies in [0, \|list\|] |
| `PageState.VegNames` | lipucook_frontend/src/app/page.tsx:92 | the vegetable list is the name projection of the answer's items, with the same length and order |
| `PageState.ProteinNames` | lipucook_frontend/src/app/page.tsx:93 | the same for proteins |
| `PageState.FlavorNames` | lipucook_frontend/src/app/page.tsx:94 | the same for flavors |
| `PageState.AfterLookup` | lipucook_frontend/src/app/page.tsx:120-135 | after a lookup, loading is over. On success the recipe is the first listed one, or null for an empty or missing list. On failure the recipe is null and the error is the failure message. The error is null exactly when there is a recipe, and the selection and busy flags are untouched |
| `PageState.LastLookupWins` | lipucook_frontend/src/app/page.tsx:122-135 | of two completed lookups, the last one to complete decides the recipe and the error |
| `PageState.Pick` | lipucook_frontend/src/app/page.tsx:140-142 | a random pick from a non-empty list is an element of that list |
| `PageComponent.Component.constructor` | lipucook_frontend/src/app/page.tsx:47-59 | the page starts with empty lists, nothing selected, no recipe, loading on and no error |
| `PageComponent.Component.BeginLoading` | lipucook_frontend/src/app/page.tsx:82 | before any request is awaited, the page is loading and shows no error; the selection, the recipe and the lists are unchanged |
| `PageComponent.Component.FinishIngredients` | lipucook_frontend/src/app/page.tsx:83-105 | once the requests settle, each list that arrives becomes its name projection. A failed request leaves every list untouched and sets the axios message; an answer without `items` sets the generic message. Loading is off afterwards in every case |
| `PageComponent.Component.FetchIngredients` | lipucook_frontend/src/app/page.tsx:81-106 | the whole load: it begins as `BeginLoading` says and ends as `FinishIngredients` says, so the final error is exactly the load's own error |
| `PageComponent.Component.Lookup` | lipucook_frontend/src/app/page.tsx:108-136 | a lookup sends the resolved ids of the selection it was given and ends as `AfterLookup` says |
| `PageComponent.Component.FinishLookup` | lipucook_frontend/src/app/page.tsx:120-135 | once the lookup request settles, loading is off and the outcome decides the recipe and error as `AfterLookup` says |
| `PageComponent.Component.GetRecipe` | lipucook_frontend/src/app/page.tsx:108-137 | the effect's lookup sends the ids of the current selection and changes no option list |
| `PageComponent.Component.SelectionEffect` | lipucook_frontend/src/app/page.tsx:74-79 | a lookup is issued exactly when the selection changed since the effect last ran and all three names are non-empty; otherwise the state is unchanged |
| `PageComponent.Component.SelectVeg` | lipucook_frontend/src/app/page.tsx:239 | only `selectedVeg` changes |
| `PageComponent.Component.SelectProtein` | lipucook_frontend/src/app/page.tsx:257 | only `selectedProtein` changes |
| `PageComponent.Component.SelectFlavor` | lipucook_frontend/src/app/page.tsx:275 | only `selectedFlavor` changes |
| `PageComponent.Component.RandomSelect` | lipucook_frontend/src/app/page.tsx:139-153 | all three names are set in one update, each drawn from its list when that list is non-empty. The explicit lookup that follows sends the ids of the selection from before the pick |
| `PageComponent.Component.RandomSelectIntended` | lipucook_frontend/src/app/page.tsx:139-153 | with the lookup made for the new names, every id sent for a non-empty list is between 1 and the list's length and points at the picked name |
| `PageComponent.RandomSelectSendsStaleIds` | lipucook_frontend/src/app/page.tsx:139-153 | on lists ["a"], ["b"], ["c"] with nothing selected, a roll picks a, b, c (ids 1, 1, 1) while the explicit lookup sends 0, 0, 0 |
| `PageComponent.Component.BeginLike` | lipucook_frontend/src/app/page.tsx:157 | while the like is awaited its button is busy, and nothing else in the state changes |
| `PageComponent.Component.FinishLike` | lipucook_frontend/src/app/page.tsx:158-172 | once the like settles, on success only the shown recipe's `likes` takes the server's value, on failure the recipe is kept, and the like button is no longer busy |
| `PageComponent.Component.HandleLike` | lipucook_frontend/src/app/page.tsx:155-173 | with no recipe nothing is sent and nothing changes. Otherwise the like is sent for the shown recipe, the button is busy while it is awaited (`BeginLike`), and the state ends as `FinishLike` says |
| `PageComponent.Component.BeginDislike` | lipucook_frontend/src/app/page.tsx:177 | while the dislike is awaited its button is busy, and nothing else in the state changes |
| `PageComponent.Component.FinishDislike` | lipucook_frontend/src/app/page.tsx:178-192 | the same as `FinishLike`, for `dislikes` and the dislike button |
| `PageComponent.Component.HandleDislike` | lipucook_frontend/src/app/page.tsx:175-193 | the same as `HandleLike`, for `dislikes` and the dislike button |
| `EndToEnd.QueryArg` | lipucook_frontend/src/app/page.tsx:113-117 | every id the page sends, 0 included, is a non-empty string and passes the service's presence checks |
| `EndToEnd.ClientLookupOutcome` | lipucook_frontend/src/app/page.tsx:111-135 | as axios delivers an answer to the page: a status outside 2xx throws, and a 2xx answer passes on its `recipes` list, or none when the body has no such field |
| `EndToEnd.ServeLookup` | lipucook_backend/service.py:117-122 | the service answers a page lookup with 200 or 404, never 400 |
| `EndToEnd.FoundByIds` | lipucook_backend/service.py:124-128 | a row is found by the page's ids exactly when its three stored ids equal them |
| `EndToEnd.NoMatchMessageNeverShown` | lipucook_backend/service.py:130-131 | no answer of the service puts the page in its "no matching recipe" state |
| `EndToEnd.NothingFoundEndsInFailure` | lipucook_frontend/src/app/page.tsx:133-135 | an empty match comes back as a 404, so the page shows no recipe and the failure message |
| `EndToEnd.UnknownNameEndsInFailure` | lipucook_backend/service.py:117-122 | a name missing from its list is sent as "0" and accepted; unless a recipe is stored under vegetable id 0, the page ends in the failure state |
| `EndToEnd.FirstFoundIsShown` | lipucook_frontend/src/app/page.tsx:120-132 | when some recipe matches, the page shows the first matching row of the table, with no error |
| `EndToEnd.PositionalIdsResolve` | lipucook_frontend/src/app/page.tsx:114-116 | the page's position-based ids are the service's ids when the k-th listed item has id k + 1 and names are distinct |

## Left out

- Rendering, theming, icons, `getRandomColor`, and the view's order of precedence (loading, then error, then recipe, then placeholder): presentation only.
- Network I/O and `Promise.all`: each awaited request's outcome is an input of its handler.
- Interleaving of handlers. Each handler runs to completion in the model, so overlapping lookups are not modelled. `PageState.LastLookupWins` states the last-writer-wins rule on the updaters. A like that completes after a lookup has cleared the recipe would, in the source, spread `null` into a partial recipe; this is not modelled.
- The stale `state` captured by the button handlers' `setState({...state, ...})` calls: the setters are modelled as writing over the current state.
- `Math.random` and `random.choices`: the draws are inputs, constrained to the ranges those calls produce.
- Flask routing, CORS, response caching, `DispatcherMiddleware` and `run_simple`.
- The `/vegetables`, `/proteins` and `/flavors` endpoints and the pagination of `/get_comments`: SQLAlchemy's paging is library behaviour. The page's `limit=100` argument, which the service does not read, is also left out.
- Transactions and rollback: a commit is a counter, and the rows added since the last commit are appended when it happens.
- Primary-key violations at commit (duplicate ids in a data file, or two generated recipe ids that collide) raise in the source. `InitDb.SeedRecipes` and the other seeding methods append without that check.
- `Decimal.Parse`: SQLite also converts text with a sign, surrounding spaces or a fractional part such as "+3", " 3" or "3.0" when comparing it with an INTEGER column. The model reads only plain digit strings as numbers.
- `Service.ColumnMatches` models only SQLite's conversion of a plain digit string to an INTEGER. Signs, decimals and surrounding spaces in a query argument are treated as never matching.
- `Service.MatchingFirst`, `EndToEnd.FirstFoundIsShown`: the queries at lipucook_backend/service.py:124-128 and 151-152 have no ORDER BY, so SQL promises no order. The model takes the result order to be rowid order, which is the order the rows were inserted.
- `Service.CommentsOf` compares recipe ids as strings. `Comment.recipe_id` is declared INTEGER, and SQLite's type affinity on it is not modelled.
- `Service.AddComment`: a request body that is not JSON, and a `comment_text` that is not a string, are not modelled. `comment_text` is either absent or a string.
- `Service.LikeRecipe`, `Service.DislikeRecipe`, `Service.NextCommentId`: SQLite's 64-bit integer limits are not modelled; counts and ids are unbounded.
- `InitDb.SeedRecipes`: a NaN cell in the spreadsheet is not modelled. A missing column reads as `None`, and a missing text reads as "".
- Reading `veg_raw.json`, `protein_raw.json`, `flavor_raw.json` and the spreadsheet: the parsed rows are inputs. The script's entry point is modelled only as `InitDb.InitDbDefault`, the call it makes.
- `PageState.Pick`: past the end of an empty list JavaScript yields `undefined`, and the model writes "". Both are falsy, so the effect's guard treats them alike. React's dependency check does not, so a roll on an empty list when the name is already "" re-runs the effect in the source but not in the model. The guard stops a lookup either way, so only the remembered dependencies differ.
- Logging (`console.log`, `console.error`, `print`).
- A `null` `recipe_context` column is not modelled. Recipes are seeded with a string there.

## Findings

| source | as written | input that shows it | evidently intended | confidence | as-written member | corrected member |
|---|---|---|---|---|---|---|
| lipucook_frontend/src/app/page.tsx:139-153 | `randomSelect` sets the new names, then calls `getRecipe()` from the closure of the previous render, so that lookup resolves the names as they were before the pick | Option lists `["a"]`, `["b"]`, `["c"]`, nothing selected yet, picks 0, 0, 0: the names become a, b, c but the explicit lookup sends ids 0, 0, 0 instead of 1, 1, 1. The service accepts "0", finds nothing and answers 404. If that answer arrives after the one for the effect's lookup, the page shows the failure message | the explicit lookup ("fetch the new recipe at once") sends the ids of the names just picked | medium, not executed | `PageComponent.Component.RandomSelect` (witnessed by `PageComponent.RandomSelectSendsStaleIds`) | `PageComponent.Component.RandomSelectIntended` |
