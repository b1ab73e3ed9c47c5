# pandorax-backend, modelled in Dafny

This project models the core of the pandorax-backend recipe service:

- **The Postgres module** (`models/db.js`). At load it picks an SSL mode. It then tries up to three fresh pools in that mode, with backoff, and falls back once to the opposite mode. If both modes fail, it attaches an unprobed last-resort pool. Meanwhile it exports a proxy that throws until a pool is attached.
- **The JWT guards** (`middleware/authMiddleware.js`).
- **The favorites handlers** (`controllers/favoritesController.js`).
- **The recipe, review and rating handlers** (`controllers/recipeController.js`).
- **The three maintenance scripts:** the migration runner (`scripts/runMigrations.js`), the connection check (`db/checkConnection.js`) and the admin seeder (`db/seed_admin.js`).

The modules:

- **`Js`** (js.dfy): the JavaScript semantics the code relies on.
  - truthiness and the value-returning `||` and `&&`;
  - `String(v)` and `Number(v)`, on integers only;
  - `trim()` and `split(" ")`.
- **`Db`** (db.dfy): the database module as a class `DbModule`.
  - Its state is `activePool`, the pool counter, and a trace of what it did to the outside world (pools created, probed, ended, backoff waits, pool attached).
  - The database is an oracle: the k-th pool created answers its `SELECT 1` with `outcomes[k]`.
  - The pure functions `SetupTrace` and `Bootstrap` are the reference that the methods `TrySetup` and `CreatePoolWithFallback` are proved against. The lemmas about them state the retry budget, the backoff schedule, which pools are ended, and which pool is kept.
- **`Auth`** (auth.dfy): the token extraction, the two guard decisions as functions, and a class `Exchange` for one request (`req.user`, the responses sent, the `next()` calls).
- **`Favorites`** (favorites.dfy): the `favorites` relation as a sequence of (user, recipe) rows in insertion order. The three handlers are a class `FavoritesTable`.
- **`Recipes`** (recipes.dfy): the `recipes` and `reviews` tables as a class `RecipeStore`, with the normalisation, default and rating-map functions the handlers apply.
- **`Migrations`** (migrations.dfy): the file selection and sort, the loop as a reference function `Migrate`, and a class `MigrationRunner` whose methods are proved against it.
- **`CheckConnection`** (checkconnection.dfy) and **`SeedAdmin`** (seedadmin.dfy): the other two scripts, run against a `Db.DbModule`.

The model replaces these with parameters:

- **Database failures:** a `dbError` or `dbFails` argument makes every query of the handler throw.
- **The token verifier:** an oracle `verify(token, secret)`.
- **bcrypt:** an oracle `hash`.
- **The file system:** the runner gets `dirExists`, `listing` and the set of migrations whose SQL throws.

## Model

| member | source | states |
|---|---|---|
| `Js.Or` | middleware/authMiddleware.js:2 | the logical or yields one of its operands; the result is truthy iff either operand is; a truthy left operand wins |
| `Js.And` | controllers/favoritesController.js:5 | the logical and yields one of its operands; the result is truthy iff both are; a falsy left operand wins |
| `Js.Trim` | controllers/recipeController.js:52 | `trim()` returns a slice of the string with only ECMAScript whitespace before and after it and none at its own ends |
| `Js.TrimIdempotent` | controllers/recipeController.js:52 | trimming twice is trimming once |
| `Js.TrimClean` | controllers/recipeController.js:52 | a string with no whitespace at either end is left as it is |
| `Js.Split` | middleware/authMiddleware.js:7 | `split(" ")` yields at least one field and no field contains a space |
| `Js.SplitAppend` | middleware/authMiddleware.js:7 | splitting `a + " " + b` is splitting `a` and `b` and concatenating the fields |
| `Js.JoinSplit` | middleware/authMiddleware.js:7 | joining the fields of `split(" ")` with single spaces gives the string back |
| `Js.StringToNumber` | controllers/favoritesController.js:35 | `Number(s)` of a non-empty run of decimal digits is its decimal value |
| `Js.NumberOfString` | controllers/recipeController.js:126 | `Number(String(n)) == n` for every integer |
| `Db.InitialUseSsl` | models/db.js:7 | SSL is on initially iff `DB_SSL` is `'true'`, or `NODE_ENV` is `'production'`, or `DB_HOST` is set to something other than `localhost` and `127.0.0.1` |
| `Db.Fallback` | models/db.js:79 | the fallback mode is the opposite of the initial one |
| `Db.MakePoolOptions` | models/db.js:11-26 | a connection string exactly when `DATABASE_URL` is set, else the five `DB_*` fields; `ssl: {rejectUnauthorized: false}` exactly when the mode is truthy |
| `Db.OptionsByMode` | models/db.js:11-26 | two modes give the same options iff they agree in truthiness, so the fallback never retries the initial options |
| `Db.SetupProbes` | models/db.js:47-67 | a retry loop creates between one and three pools |
| `Db.SetupOutcome` | models/db.js:45-68 | `trySetup` yields a pool iff one of the next three pools answers its probe, and it stops at the first that does (1, 2 or 3 pools) |
| `Db.BackoffViews` | models/db.js:57-61 | after a failed attempt other than the last, exactly one wait of 500·2^(attempt-1) ms; after the last, none |
| `Db.FailedStep` | models/db.js:50-62 | a failed attempt creates, probes and ends its own pool, then goes on after the backoff |
| `Db.ConnectedStep` | models/db.js:50-54 | a successful attempt creates and probes one pool and stops, ending nothing |
| `Db.SetupProbed` | models/db.js:49-52 | the loop probes consecutively numbered pools, one per attempt |
| `Db.SetupCreated` | models/db.js:46-50 | every attempt constructs a fresh pool from the same options |
| `Db.SetupEnded` | models/db.js:55-56 | every pool but the one returned is ended; all of them when the loop fails |
| `Db.SetupWaited` | models/db.js:57-60 | the waits are the backoff schedule of the attempts that failed before the last |
| `Db.SetupAttachesNothing` | models/db.js:45-68 | the retry loop never assigns `activePool` |
| `Db.SetupHygiene` | models/db.js:55-56 | every failed probe is followed at once by ending that pool |
| `Db.ScheduleValues` | models/db.js:47-48 | one mode waits 500 ms and then 1000 ms |
| `Db.FallbackViews` | models/db.js:80-93 | after the opposite mode: attach its pool, or construct and attach one last-resort pool; no probe, end or wait |
| `Db.InitialViews` | models/db.js:73-77 | after a connecting initial mode only its pool is attached; otherwise the fallback runs |
| `Db.BootstrapProbes` | models/db.js:71-95 | the bootstrap probes consecutively numbered pools, and the opposite mode only after the initial mode failed |
| `Db.ProbeBudget` | models/db.js:47 | at most three probes per mode and six in all, and the fallback only after three failures |
| `Db.BootstrapModes` | models/db.js:72-90 | pools are built with the initial options, then the opposite ones, then one more with the initial options, each stage only if the previous failed |
| `Db.BootstrapEnds` | models/db.js:56 | every pool the bootstrap constructs is ended, except the one it keeps |
| `Db.BootstrapWaits` | models/db.js:58-60 | the waits are one mode's schedule, or the full initial schedule followed by the opposite mode's |
| `Db.BootstrapAttaches` | models/db.js:75 | `activePool` is assigned exactly once, to the chosen pool |
| `Db.SetupLength` | models/db.js:49-66 | a connecting loop stops at its first successful probe; a failing one has used all three attempts, none of which succeeded |
| `Db.ChosenFacts` | models/db.js:71-95 | the kept pool is the first that answered, with the options of its mode; else the unprobed seventh pool, with the initial options; every earlier pool failed |
| `Db.ChosenUnprobed` | models/db.js:90-91 | the last-resort pool is attached without ever being probed |
| `Db.BootstrapHygiene` | models/db.js:56 | across the whole bootstrap, every failed probe is followed by ending that pool |
| `Db.DbModule.Load` | models/db.js:101-103 | right after loading (the first `await` of the bootstrap has not resumed), no pool is attached |
| `Db.DbModule.NewPool` | models/db.js:50 | `new Pool(opts)` yields the next numbered pool and records its creation |
| `Db.DbModule.Probe` | models/db.js:52 | the probe succeeds iff the database accepts that pool, and is recorded |
| `Db.DbModule.End` | models/db.js:56 | ending a pool is recorded; its failure is ignored |
| `Db.DbModule.Sleep` | models/db.js:60 | the backoff wait is recorded |
| `Db.DbModule.AttachPool` | models/db.js:28-39 | no pool leaves everything unchanged; a pool becomes `activePool` and the attachment is recorded |
| `Db.DbModule.TrySetup` | models/db.js:45-68 | the loop does exactly what `SetupTrace` describes, creates `SetupProbes` pools, and returns a pool iff `SetupConnects`, namely the last one created |
| `Db.DbModule.CreatePoolWithFallback` | models/db.js:71-95 | the run does exactly what `Bootstrap` describes and leaves `activePool` set to `Chosen` |
| `Db.DbModule.Get` | models/db.js:107-117 | the proxy fails iff no pool is attached, with the "not initialized yet" message naming the property, and otherwise delegates to the attached pool |
| `Auth.Secret` | middleware/authMiddleware.js:2 | the secret is `JWT_SECRET` when it is non-empty, else `"yourSecretKey"` |
| `Auth.TokenOf` | middleware/authMiddleware.js:7 | there is a token iff the header exists and its second space-separated field is non-empty; a token never holds a space |
| `Auth.BearerToken` | middleware/authMiddleware.js:7 | `"<scheme> <token>"` yields exactly the token |
| `Auth.BearerTokenWithRest` | middleware/authMiddleware.js:7 | what follows a further space does not change the token |
| `Auth.NoSpaceNoToken` | middleware/authMiddleware.js:7-11 | a header with no space, such as a bare token, carries no token |
| `Auth.DoubleSpaceNoToken` | middleware/authMiddleware.js:7-11 | two spaces after the scheme yield the empty field, so there is no token |
| `Auth.AuthCases` | middleware/authMiddleware.js:25-41 | `verifyAuth` answers "No token provided" iff there is no token and "Invalid token" iff the verifier rejects it; otherwise it passes the verifier's claims; every answer is 401 |
| `Auth.AdminIsAuthThenAdmin` | middleware/authMiddleware.js:4-22 | `verifyAdmin` is `verifyAuth` followed by the `is_admin` check, which answers 403 "Admin only" |
| `Auth.AdminStricter` | middleware/authMiddleware.js:4-41 | whatever `verifyAdmin` passes, `verifyAuth` passes with the same claims; they differ exactly on a valid non-admin token |
| `Auth.AdminBearerPasses` | middleware/authMiddleware.js:7-17 | a `Bearer` header whose token verifies to admin claims passes both guards |
| `Auth.UserIdOf` | controllers/favoritesController.js:5 | `req.user && req.user.id` is truthy iff there is a user with a truthy id, and is then that id |
| `Auth.Exchange.Send` | middleware/authMiddleware.js:10 | a response is appended to those sent |
| `Auth.Exchange.Admit` | middleware/authMiddleware.js:16-17 | `req.user` is set to the claims and `next()` is called once |
| `Auth.Exchange.VerifyAdmin` | middleware/authMiddleware.js:4-22 | the request moves by exactly `AdminDecision`: one response, or `req.user` and one `next()`, never both |
| `Auth.Exchange.VerifyAuth` | middleware/authMiddleware.js:25-41 | the request moves by exactly `AuthDecision`: one response, or `req.user` and one `next()`, never both |
| `Favorites.RecipeIdCases` | controllers/favoritesController.js:35-38 | a decimal id is accepted as its value iff it is not zero; the empty string and text like `x12` are rejected |
| `Favorites.NonNumericIsNaN` | controllers/favoritesController.js:35 | text that starts with neither a digit nor a sign is NaN |
| `Favorites.Without` | controllers/favoritesController.js:43 | the delete never adds rows |
| `Favorites.WithoutMembers` | controllers/favoritesController.js:43 | the delete removes exactly the pair `(user, recipe)` |
| `Favorites.WithoutAbsent` | controllers/favoritesController.js:43 | deleting an absent pair changes nothing |
| `Favorites.WithoutAppend` | controllers/favoritesController.js:43-46 | deleting after an insert is the insert after the delete, unless the two are the same pair |
| `Favorites.WithoutDistinct` | controllers/favoritesController.js:43 | the delete keeps the table free of duplicate pairs |
| `Favorites.AppendDistinct` | controllers/favoritesController.js:46 | inserting an absent pair keeps the table free of duplicates |
| `Favorites.ToggleDistinct` | controllers/favoritesController.js:41-47 | a toggle keeps the table free of duplicate pairs |
| `Favorites.ToggleMembers` | controllers/favoritesController.js:41-47 | after a toggle the pair is present iff it was absent, and every other pair is as it was |
| `Favorites.ToggleTwice` | controllers/favoritesController.js:41-47 | toggling twice restores the same pairs, the very same rows when the pair was absent, and the pair as the newest row when it was present |
| `Favorites.IdsOf` | controllers/favoritesController.js:22-24 | an id is listed iff the user has favorited it |
| `Favorites.IdsOfDistinct` | controllers/favoritesController.js:22-24 | on a table without repeated pairs, each id is listed once |
| `Favorites.Positions` | controllers/favoritesController.js:8 | the joined rows are exactly the user's favorites whose recipe exists, strictly newest first |
| `Favorites.FavoriteRecipes` | controllers/favoritesController.js:8-10 | one recipe per joined favorite row |
| `Favorites.FavoriteRecipesOrdered` | controllers/favoritesController.js:8-10 | the i-th recipe listed is the recipe of the i-th joined favorite, newest first, and no favorite with an existing recipe is missing |
| `Favorites.FavoritesTable.GetFavoriteIds` | controllers/favoritesController.js:18-30 | 401 "Unauthorized" without a user id; 500 "Server error" when the database fails; else the ids the user favorited, exactly |
| `Favorites.FavoritesTable.GetFavorites` | controllers/favoritesController.js:4-15 | 401 without a user id; 500 when the database fails; else as many recipes as joined favorite rows |
| `Favorites.FavoritesTable.ToggleFavorite` | controllers/favoritesController.js:33-52 | 401 first, then 400 "Invalid recipe id" for a falsy `Number(recipeId)`, then 500, none of them touching the table; otherwise the table is toggled, answering "removed" iff the pair was present and "added" iff absent; no duplicate pair ever appears |
| `Recipes.SqlValue` | controllers/recipeController.js:61 | an undefined parameter is sent as NULL; any other value as itself |
| `Recipes.NormalizeCategory` | controllers/recipeController.js:52 | no category iff the input is falsy; else `String(category).trim()`, with no whitespace at either end |
| `Recipes.NormalizeCategoryStable` | controllers/recipeController.js:52 | a category already stored is normalised to itself |
| `Recipes.BlankCategory` | controllers/recipeController.js:52 | a whitespace-only category is stored as the empty string, not as null |
| `Recipes.CreatedBy` | controllers/recipeController.js:54 | the authenticated user's id wins; else a truthy `created_by`; else null |
| `Recipes.Default` | controllers/recipeController.js:61 | the logical or with a default: the value when truthy, else the default |
| `Recipes.NewRecipe` | controllers/recipeController.js:52-61 | the inserted row has the title sent as a query parameter, the normalised category, the creator of `CreatedBy` and no ratings; image, description, ingredients and instructions are the body's when truthy and null otherwise, favorite the body's when truthy and false otherwise |
| `Recipes.UpdatedRecipe` | controllers/recipeController.js:74-78 | the update replaces every editable field as the insert would, keeps the creator and the ratings, and preserves well-formedness |
| `Recipes.NewReview` | controllers/recipeController.js:100-107 | the review belongs to the recipe; uid, reviewer, text and rating are the body's when truthy and otherwise null, "Anonymous", the empty string and 0 |
| `Recipes.RatingValue` | controllers/recipeController.js:126 | `Number(rating)`, or 0 when that is falsy: the number when it is a non-zero integer, else 0 |
| `Recipes.RatingsReset` | controllers/recipeController.js:123-126 | null, falsy or array ratings become a map holding only the new entry, or an empty map when the key is `__proto__` |
| `Recipes.RatingsUpdate` | controllers/recipeController.js:126 | on a map, the entry under `String(uid)` is set and every other entry kept; a `__proto__` key the map does not own goes to the inherited setter and leaves the map unchanged |
| `Recipes.ProtoRatingIgnored` | controllers/recipeController.js:126 | a rating from uid `"__proto__"` leaves a map without an own `__proto__` entry as it was |
| `Recipes.RatingsOnPrimitive` | controllers/recipeController.js:123-126 | a truthy number, string or boolean does not take the assignment |
| `Recipes.EntryLastWins` | controllers/recipeController.js:126 | saving twice under one key keeps the second value |
| `Recipes.EntryCommute` | controllers/recipeController.js:126 | saving under two different keys gives the same map in either order |
| `Recipes.RatingsLastWins` | controllers/recipeController.js:126 | a user's latest rating wins, and saving the same rating again changes nothing |
| `Recipes.RatingsCommute` | controllers/recipeController.js:126 | the ratings of two users whose keys differ do not interfere |
| `Recipes.IndexOf` | controllers/recipeController.js:36 | `WHERE id=$1` finds a position holding that id, or there is none |
| `Recipes.DeleteRowMembers` | controllers/recipeController.js:90 | the delete removes exactly the row with that id and keeps the others in order |
| `Recipes.RemoveAt` | controllers/recipeController.js:90 | removing one position of an id-ordered table removes exactly that id |
| `Recipes.ReviewsOf` | controllers/recipeController.js:19 | a recipe's reviews are exactly the stored reviews with its id |
| `Recipes.ReviewPositions` | controllers/recipeController.js:40 | the positions of a recipe's stored reviews, each once, from the newest to the oldest |
| `Recipes.ReviewsOfOrdered` | controllers/recipeController.js:40 | a recipe's listed reviews are exactly the reviews at `ReviewPositions`, in that order: once per stored review, newest first, whatever other recipes' reviews lie between |
| `Recipes.NewestReviewFirst` | controllers/recipeController.js:40 | the newest review of a recipe is listed first |
| `Recipes.LowerChar` | controllers/recipeController.js:11 | an ASCII capital becomes its small letter, 32 code points on; any other character is kept |
| `Recipes.Lower` | controllers/recipeController.js:11 | `lower()` keeps the length, turns each ASCII capital into its small letter, and keeps every other character |
| `Recipes.SqlTrim` | controllers/recipeController.js:11 | `trim()` leaves no space at either end and never lengthens the string |
| `Recipes.SqlTrimSlice` | controllers/recipeController.js:11 | what `trim()` leaves is a slice of the text with only spaces before and after it |
| `Recipes.Select` | controllers/recipeController.js:7-14 | without a truthy category every row; else exactly the rows whose trimmed lower-cased category matches |
| `Recipes.SelectKeepsOrder` | controllers/recipeController.js:7-15 | the filter keeps the table's order: rows in ascending id order stay in ascending id order |
| `Recipes.SelectByKey` | controllers/recipeController.js:9-12 | two category texts that agree once trimmed and lower-cased select the same rows |
| `Recipes.SelectDessert` | controllers/recipeController.js:9-12 | `?category=Dessert` and `?category=  dessert ` list the same recipes |
| `Recipes.RecipeStore.AttachReviews` | controllers/recipeController.js:17-25 | each listed recipe gets its reviews, or `[]` when fetching them fails; nothing else changes |
| `Recipes.RecipeStore.GetRecipes` | controllers/recipeController.js:4-30 | 500 with the error message when the listing query fails; else every selected recipe, in order, with its reviews or `[]` |
| `Recipes.RecipeStore.GetRecipeById` | controllers/recipeController.js:33-46 | 500 on a database error; 404 "Recipe not found" when no row has the id; else the row with that id and its reviews newest first (`ReviewsOf`) |
| `Recipes.RecipeStore.AddRecipe` | controllers/recipeController.js:49-68 | 500 and nothing stored on a database error; else the row `NewRecipe` under the next id is appended and returned with "Recipe added!" |
| `Recipes.RecipeStore.UpdateRecipe` | controllers/recipeController.js:71-84 | 500 on a database error; "Recipe updated!" with no row when the id is absent; else that row is replaced by `UpdatedRecipe` |
| `Recipes.RecipeStore.DeleteRecipe` | controllers/recipeController.js:87-95 | 500 on a database error; else "Recipe deleted!" whether or not the row existed, and the row is gone |
| `Recipes.RecipeStore.AddReview` | controllers/recipeController.js:98-113 | 500 on a database error; 404 for an unknown recipe; else `NewReview` is appended and returned with "Review added" |
| `Recipes.RecipeStore.AddRating` | controllers/recipeController.js:116-132 | 400 "uid required" before any query; then 500; then 404; else the row's ratings become `SaveRating` and that map is returned with "Rating saved" |
| `Migrations.SqlFiles` | scripts/runMigrations.js:41 | exactly the names ending in `.sql` |
| `Migrations.LexTotal` | scripts/runMigrations.js:42 | the default string order compares any two names |
| `Migrations.LexTrans` | scripts/runMigrations.js:42 | the default string order is transitive |
| `Migrations.Insert` | scripts/runMigrations.js:42 | inserting a name adds exactly that name |
| `Migrations.InsertSorted` | scripts/runMigrations.js:42 | inserting into a sorted list keeps it sorted |
| `Migrations.Sort` | scripts/runMigrations.js:42 | `.sort()` yields a sorted permutation of its input |
| `Migrations.Pending` | scripts/runMigrations.js:40-42 | the files visited are exactly the `.sql` names listed, in sorted order |
| `Migrations.MigrateTouches` | scripts/runMigrations.js:44-51 | the run touches only files it visits that were not applied before |
| `Migrations.MigrateCovers` | scripts/runMigrations.js:44-51 | a run that does not fail leaves every visited file applied or recorded; the history only grows |
| `Migrations.ExecutedFiles` | scripts/runMigrations.js:24 | every file whose SQL is listed as run appears in the log |
| `Migrations.RecordedAfterExecuted` | scripts/runMigrations.js:21-27 | a name is recorded only right after its SQL has run |
| `Migrations.HistoryGrowth` | scripts/runMigrations.js:25 | the history grows by exactly the names the log records, in order |
| `Migrations.RecordedStep` | scripts/runMigrations.js:24-25 | one applied migration records its own name first |
| `Migrations.RestartRecords` | scripts/runMigrations.js:21-27 | each iteration's actions start with running SQL, whatever came before |
| `Migrations.MigrateInOrder` | scripts/runMigrations.js:40-51 | the migrations run in sorted order |
| `Migrations.SortedCons` | scripts/runMigrations.js:42 | a name no greater than any of a sorted list can lead it |
| `Migrations.MigrateStops` | scripts/runMigrations.js:50 | a failure stops the run: files after the failing one are never touched |
| `Migrations.NothingPending` | scripts/runMigrations.js:45-47 | with every file already applied, the run does nothing and succeeds |
| `Migrations.Applied` | scripts/runMigrations.js:16-19 | the applied set holds exactly the names in the history |
| `Migrations.Idempotent` | scripts/runMigrations.js:29-59 | a second run after a successful one applies nothing |
| `Migrations.MigrateSucceeds` | scripts/runMigrations.js:44-51 | over distinct files none of which is broken or already in the history unless applied, the loop does not fail |
| `Migrations.CleanRun` | scripts/runMigrations.js:39-51 | a listing without repeated names and without a broken pending file runs to the end and leaves every `.sql` file in the history |
| `Migrations.MigrateStep` | scripts/runMigrations.js:44-51 | one iteration: skip an applied file; stop on failing SQL or a duplicate history name; else run, record and go on |
| `Migrations.MigrationRunner.ApplyMigration` | scripts/runMigrations.js:21-27 | the SQL runs unless it throws; the name is recorded iff the SQL ran and the name was not in the history |
| `Migrations.MigrationRunner.ApplyAll` | scripts/runMigrations.js:44-51 | the loop does exactly what `Migrate` describes: same actions, same history, same failure |
| `Migrations.MigrationRunner.Run` | scripts/runMigrations.js:29-59 | exit 1 and nothing done without the directory; exit 2 and nothing done without a pool; else the `Migrate` run over the pending files, then exit 0, or 2 on failure |
| `Migrations.RunAtLoad` | scripts/runMigrations.js:37 | as written: with the directory present the run exits with 2 and applies nothing, whatever the database would answer |
| `Migrations.RunAfterSetup` | scripts/runMigrations.js:29-59 | with the bootstrap finished first: the pending migrations run as `Migrate` says and the exit code reflects failure |
| `CheckConnection.TableOf` | db/checkConnection.js:4 | the table is the argument when it is non-empty, else `users` |
| `CheckConnection.Query` | db/checkConnection.js:13 | the query is `SELECT * FROM `, the table, then ` LIMIT 5` |
| `CheckConnection.QueryInjective` | db/checkConnection.js:13 | different tables give different queries |
| `CheckConnection.QueryIsClean` | db/checkConnection.js:6-13 | a name that passes the check cannot bring a quote, a semicolon or a comment dash into the query |
| `CheckConnection.DefaultIsValid` | db/checkConnection.js:4-6 | the default table `users` passes the name check |
| `CheckConnection.Run` | db/checkConnection.js:4-21 | an invalid name exits with 1 before any query; without a pool the query is never sent, the error is "not initialized" and the pool is not ended; with a pool the query is sent once, the pool is ended, and an error is reported iff the query fails |
| `CheckConnection.CheckAtLoad` | db/checkConnection.js:13 | as written: for a valid name the query is never sent and the pool never ended |
| `CheckConnection.CheckAfterSetup` | db/checkConnection.js:11-21 | with the bootstrap finished first: for a valid name the query is sent, the pool ended, and an error reported iff the query fails |
| `SeedAdmin.EmailOf` | db/seed_admin.js:5 | the email is the argument when it is non-empty, else `admin@example.com` |
| `SeedAdmin.PasswordOf` | db/seed_admin.js:6 | the password is the argument when it is non-empty, else `admin` |
| `SeedAdmin.CountEmail` | db/seed_admin.js:10-11 | no user has the email iff the count is zero |
| `SeedAdmin.CountAppend` | db/seed_admin.js:17-20 | an insert adds one to the count of its own email only |
| `SeedAdmin.UsersTable.Seed` | db/seed_admin.js:8-29 | exit 1 and nothing inserted without a pool or when a query fails; exit 0 and nothing inserted when the email exists; else one admin with the hashed password is inserted under the next id |
| `SeedAdmin.SeedOnce` | db/seed_admin.js:10-20 | after a seed the email exists, exactly once when it was new, and seeding again changes nothing |
| `SeedAdmin.SeedAtLoad` | db/seed_admin.js:10 | as written: the script exits with 1 and inserts nothing, whatever the database would answer |
| `SeedAdmin.SeedAfterSetup` | db/seed_admin.js:8-29 | with the bootstrap finished first: the table is `Seeded`, exit 0 when the email existed and a normal end otherwise |

## Left out

- Logging and console output: every `console.*` call and `console.table` in the check script.
- HTTP framing: the handlers return their JSON body or status and error as a value; `res.json` is not modelled.
- The pg driver and SQL are modelled only through the queries the code sends. A `SELECT` without `ORDER BY` returns rows in insertion order. `ORDER BY created_at DESC` is taken as the reverse of insertion order, so ties between timestamps are not modelled.
- SQL `lower`/`trim`: `lower()` folds ASCII letters only and `trim()` removes spaces only. Other characters are compared as they are.
- `jwt.verify` is an oracle: signatures, expiry and algorithms are not modelled.
- `bcrypt.hash` is an oracle: the salt and cost factor are not modelled.
- JavaScript numbers are integers. `Number("1.5")`, exponents, hexadecimal and `Infinity` are NaN in the model.
- `String()` of an object gives `[object Object]` and `Number()` of an object is NaN; arrays are not distinguished from objects. So a rating `[5]` sent to the rating route, which `Number(rating) || 0` turns into 5, is saved as 0 in the model.
- A route id is an integer. A non-numeric id, which Postgres rejects with a cast error, is covered only as a database error.
- Foreign keys: deleting a recipe keeps its reviews and favorites, since the schema's `ON DELETE` action is not part of this model.
- Columns the database fills in (review ids, `created_at`) are not returned in the modelled replies. A listed review keeps its `recipeId`, although the listing queries select `id, uid, reviewer, text, rating, created_at` and not `recipe_id`. A new recipe's `ratings` column is taken to default to null.
- `pool.on('error')` in `attachPool`, and its try/catch, are not modelled.
- The last-resort pool is attached without a probe. Whether it later connects is not modelled.
- `tryCreatePoolWithFallback().catch(...)` (models/db.js:101-103) is not modelled: every path of the bootstrap returns normally.
- Concurrency is not modelled. Requests run one at a time. The bootstrap runs either not at all before a script's first query (the as-written members) or to completion (the corrected members); partial interleavings are left out.
- Migrations.MigrationRunner.Run: a failure of the `CREATE TABLE` or of the history `SELECT` on an attached pool is not modelled. Only a migration's SQL (the `broken` set) and the `UNIQUE` constraint on the history fail.
- Migrations.Sort: names are compared by code point, while JavaScript's default sort compares UTF-16 code units. The two orders differ only for characters outside the Basic Multilingual Plane.
- Recipes.RecipeStore.GetRecipes: the category is absent or one string. A repeated query parameter (`?category=a&category=b`) makes `req.query.category` an array, which pg sends as an array literal; that case is not modelled.
- Recipes.RecipeStore.GetRecipes: a database failure is a single `dbError` that fails the listing query; per-recipe review failures are the set `failing`.
- Favorites.FavoritesTable.GetFavorites: its own contract states only the length of the listing. Its contents and order are stated by `Favorites.FavoriteRecipesOrdered`.
- Reading migration files (`fs.readFileSync`) and the path of the directory are not modelled. A file's SQL either runs or throws.
- `process.exit` ends the run at once in the model, so a `finally` block after it does not run.

## Findings

| source | as written | input that shows it | evidently intended | confidence | as-written member | corrected member |
|---|---|---|---|---|---|---|
| db/checkConnection.js:13 | the query goes through the proxy right after `require('../models/db')`, while the bootstrap is still awaiting its first probe and no pool is attached | `node db/checkConnection.js users` against a reachable database | the table is queried and the pool ended | not executed | `CheckConnection.CheckAtLoad` | `CheckConnection.CheckAfterSetup` |
| db/seed_admin.js:10 | the lookup goes through the proxy before any pool is attached, so the script exits with 1 | `node db/seed_admin.js a@b.c pw` against a reachable database with no such user | the admin user is inserted | not executed | `SeedAdmin.SeedAtLoad` | `SeedAdmin.SeedAfterSetup` |
| scripts/runMigrations.js:37 | `ensureMigrationsTable` queries through the proxy before any pool is attached, so the runner exits with 2 | `node scripts/runMigrations.js` with a migrations directory holding new `.sql` files | the pending migrations are applied | not executed | `Migrations.RunAtLoad` | `Migrations.RunAfterSetup` |
