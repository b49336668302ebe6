# Food inventory: a verified model of the decision logic

This project models the logic of a food-inventory web application in Dafny. Users keep a list of the ingredients they own, ask a hosted language-model agent for recipes, photograph groceries and let the agent list what it sees, and browse a small usage dashboard. Most of the application is database, cloud-agent and rendering code. What is modelled is the logic between those layers:

- **Ingredient types** (`IngredientTypes`, `IngredientOptions`):
  - the closed unit, category and status enumerations and their option lists;
  - the `Ingredient` record, with its object form read back losslessly.
- **Agent conversation** (`AgentStream`): a reply's completion is the in-order concatenation of the chunks that carry text.
- **Recipe prompt** (`RecipeLlm`): which condition lines appear, the ingredient list, and trimming of the whole prompt. The recipe call makes one attempt and passes any failure through.
- **Recipe job kick-off** (`RecipesRoute`):
  - the initial recipe record;
  - the immediate answer, which never depends on the agent;
  - the description derived from the generated text: three lines joined by spaces, cut at 100 characters with `...`.
- **Image-to-ingredients pipeline** (`ImageLlm`):
  - the response is cut from the first `[` to the last `]` and handed to an evaluator;
  - failed attempts are retried with growing delays;
  - each returned record is stamped with a fresh id, timestamps and status `active`;
  - the image prompt is composed from a base prompt and an optional addition.
- **Image-upload endpoint** (`IngredientImagesRoute`): three ordered checks on the uploaded entry, then one forwarding request per extracted ingredient, strictly in order.
- **Dashboard queries** (`Dashboard`):
  - a 30-day window of labels, with gaps filled from the query rows;
  - popular ingredients, with a fallback list sorted in place by usage count.
- **Recipes page** (`RecipePages`): paging, the range label, the button rules and deletion, with a class over the page's state.
- **Ingredient table** (`IngredientsTable`): the category colour map, the expiry highlight, the selection cart driven by checkboxes, and the edit dialog state.
- **Trend chart** (`TrendChart`): the client's own 30-point zero fill and its loading and error state.
- **Ingredient forms** (`IngredientForms`): the add and edit forms' initial state, field updates, quantity input parsing and submit guard.

Shared helpers live in `Wrappers` (Option, Result), `Strings` (JavaScript `split`, `join`, `trim` and decimal rendering) and `JsValues` (JavaScript values, truthiness, `parseInt`, `Number()`).

The agent, the evaluator of the extracted array text, the id source, the clock, random draws, shuffles, date formatting and network failures are all parameters. Every property below holds for all choices of them.

Behaviour the model pins down where the code and its comments or messages disagree:

- The upload limit is 100 MiB (104857600 bytes, inclusive), while the error message says 10MB (`IngredientImagesRoute.LimitIsInclusive`).
- The chart's zero fill covers today-30 … today-1. The server window covers today-29 … today, so the chart is one day behind (`TrendChart.ZeroFillOneDayBehind`).
- Deleting a recipe never decrements `totalItems`, so the page count and the next button go stale (`RecipePages.StaleTotalAfterDelete`).
- A quantity typed as `.5` reads as NaN, and NaN passes the `quantity <= 0` guard (`IngredientForms.NonNumericQuantityPasses`).
- Both ingredient dialogs read a submitted form's date from the key `expirationDate`. The add form keeps its date, initial or typed, under `expiration_date`, so its date is never submitted (`IngredientForms.AddFormDateNotSubmitted`). The edit form's date box does write `expirationDate`, but the form starts from the ingredient, which has no such key, so an unedited date is not submitted (`IngredientForms.EditFormDateSubmittedOnlyWhenEdited`). The edit form's category menu offers only 野菜, 肉 and 魚.
- Grains (雑穀) have no colour of their own and are shown gray (`IngredientsTable.CategoryColors`).
- The recipe job persists nothing: the returned id is always `123`, and the status transitions exist only as commented-out code.
- The fallback list is cut with JavaScript `slice(0, limit)`, so `limit` bounds its length only when it is not negative (`Dashboard.SliceEnd`). A negative `limit` would first reach the database query, which refuses it, so that case does not arise in the application.
- The dummy trend counts are 1 to 5, although the comment says 1 to 10.
- The pipeline stamps `createdAt`/`updatedAt` (camelCase) although the ingredient record's fields are `created_at`/`updated_at`.
- `CreateIngredientInput` omits the nonexistent key `createdAt`, so only `id` is removed.

## Model

| member | source | states |
|---|---|---|
| IngredientTypes.UnitFromLabel | types/ingredients.ts:3 | exactly seven spellings are units, each read back as the unit whose label it is |
| IngredientTypes.CategoryFromLabel | types/ingredients.ts:34-42 | exactly eight spellings, 雑穀 among them, are categories, each the one whose label it is |
| IngredientTypes.StatusFromLabel | types/ingredients.ts:18 | a status is one of active, used, expired and nothing else |
| IngredientTypes.OmitId | types/ingredients.ts:32 | omitting `id` keeps everything else, the creation timestamp included: putting the id back restores the ingredient |
| IngredientTypes.FromObjectToObject | types/ingredients.ts:6-19 | the object form of an ingredient reads back to the same ingredient |
| IngredientTypes.ToObjectKeys | types/ingredients.ts:6-19 | the object form always has the nine required keys, and has `used_at`, `notes`, `status` exactly when those are present |
| IngredientOptions.UnitOptionsExact | types/ingredientsTypeInstance.ts:4-12 | the unit options list every unit exactly once, in declaration order, first 個 |
| IngredientOptions.CategoryOptionsExact | types/ingredientsTypeInstance.ts:13 | the category options list every category exactly once, first 野菜, in an order other than the declaration's |
| AgentStream.Accumulate | lib/api/llm.ts:36-46 | the read loop's result is the concatenation of the defined chunks in order |
| AgentStream.CompletionAppend | lib/api/llm.ts:39-45 | reading two stretches of stream yields the two completions concatenated |
| AgentStream.CompletionSkipsEmptyEvent | lib/api/llm.ts:41 | an event without a chunk contributes nothing |
| AgentStream.CompletionOfOne | lib/api/llm.ts:42-43 | a single chunk's text is the whole completion |
| AgentStream.ReplyText | lib/api/llm.ts:35-53 | a send or stream failure yields its cause as an error; a reply without a stream yields ""; otherwise the completion |
| AgentStream.ReadReply | lib/api/llm.ts:35-53 | the imperative reading of a reply agrees with ReplyText |
| RecipeLlm.IngredientLines | lib/api/llm.ts:64-66 | one line per ingredient, in input order |
| RecipeLlm.OptionalLine | lib/api/llm.ts:74-75 | an optional condition line is empty exactly when its field is absent or empty, else caption plus value |
| RecipeLlm.AllergyLine | lib/api/llm.ts:76-80 | the allergy line is empty exactly when the list is absent or empty, else the entries joined by `, ` |
| RecipeLlm.RecipePrompt | lib/api/llm.ts:69-105 | the prompt is trimmed: it neither starts nor ends with whitespace |
| RecipeLlm.PromptShape | lib/api/llm.ts:69-105 | trimming removes exactly the template's leading and trailing newline, so the prompt is header, conditions, ingredients and format block in that order |
| RecipeLlm.ConditionsBlockLines | lib/api/llm.ts:72-85 | the conditions block splits into six lines: the heading, the people count, and one slot per optional condition that is empty exactly when its field is absent or empty |
| RecipeLlm.IngredientBlockLines | lib/api/llm.ts:88 | splitting the ingredient block at newlines gives back exactly the ingredient lines |
| RecipeLlm.CallLLM | lib/api/llm.ts:23-54 | exactly one invocation is sent, carrying the prompt and no image; its reply's text or error is passed through |
| RecipeLlm.GenerateRecipeSuggestions | lib/api/llm.ts:59-111 | the one invocation carries the recipe prompt, and the result is the reply's text or error |
| RecipesRoute.PendingDescription | app/api/recipes/route.ts:33 | the placeholder is the people count, 人分の, the meal preference or nothing, then レシピを生成中... |
| RecipesRoute.Initial | app/api/recipes/route.ts:30-36 | the initial record keeps the request and has status 作成中, empty content, the dummy user and the placeholder description |
| RecipesRoute.Description | app/api/recipes/route.ts:46-49 | the description is the first three lines joined by spaces, cut to 100 characters plus `...` when longer, so at most 103 characters and free of newlines |
| RecipesRoute.Settle | app/api/recipes/route.ts:43-70 | a description is derived exactly when generation succeeds with non-empty text; a failure derives nothing |
| RecipesRoute.Post | app/api/recipes/route.ts:25-87 | an unreadable body answers 500 with the fixed message; otherwise the answer is the id `123`, and the background job starts from the initial record, sends the recipe prompt once, and derives the description `Settle` gives for the reply |
| RecipesRoute.ResponseIndependentOfAgent | app/api/recipes/route.ts:42-79 | the response is the same whatever the agent does |
| RecipesRoute.FailureDerivesNothing | app/api/recipes/route.ts:69-79 | a failed generation still answers with the id and derives no description |
| RecipesRoute.ShortContentDescription | app/api/recipes/route.ts:46-49 | three short lines become one line with single spaces, not truncated |
| RecipesRoute.FourthLineIgnored | app/api/recipes/route.ts:46 | anything after the third line does not affect the description |
| ImageLlm.ArrayBounds | lib/api/llm_image.ts:30 | bounds exist exactly when a `]` follows the first `[`, and they are the first `[` and the last `]` |
| ImageLlm.ArraySpan | lib/api/llm_image.ts:30-34 | the span exists exactly when a bracket pair does, and it is the text from the first `[` to the last `]`, both included |
| ImageLlm.ParseResponseAsArray | lib/api/llm_image.ts:27-40 | a value is returned exactly when a span exists and evaluates; otherwise null, never an exception |
| ImageLlm.ParseOfPlainText | lib/api/llm_image.ts:30-31 | any text without a `[`, or without a `]`, parses to null whatever the evaluator |
| ImageLlm.SpanIsGreedy | lib/api/llm_image.ts:30 | for any `[` before any `]` in a text, a span exists and contains both, with everything between them |
| ImageLlm.ClosingBeforeOpeningHasNoSpan | lib/api/llm_image.ts:30-31 | any text in which every `]` comes before every `[` has no span |
| ImageLlm.Stamped | lib/api/llm_image.ts:97-103 | a stamped record keeps every parsed field except id, createdAt, updatedAt, status, which are overridden with the fresh id, now, now, active |
| ImageLlm.Enrich | lib/api/llm_image.ts:97-103 | one stamped record per parsed record, in order, the i-th with the i-th fresh id |
| ImageLlm.EnrichIdsDistinct | lib/api/llm_image.ts:99 | with fresh ids, the returned records' ids are pairwise distinct |
| ImageLlm.AttemptInvocation | lib/api/llm_image.ts:58-80 | attempt a sends the prompt with the image and session a |
| ImageLlm.Attempt | lib/api/llm_image.ts:57-111 | an attempt succeeds exactly when the reply has a text that parses to an array, and then yields that array's records stamped by `Enrich`; a failed reply, an unparsable text and a non-array value give their own errors |
| ImageLlm.PipelineRecordsStamped | lib/api/llm_image.ts:97-103 | every record a successful pipeline returns carries the i-th supplied id, status `active` and the clock reading as `createdAt` and `updatedAt` |
| ImageLlm.Backoff | lib/api/llm_image.ts:114-116 | the waits after attempts from, from+1, ... are 1000 times the attempt number |
| ImageLlm.AttemptsBounded | lib/api/llm_image.ts:52-56 | at most maxRetries attempts (none when maxRetries <= 0), numbered 1, 2, ... in sequence |
| ImageLlm.FirstSuccessWins | lib/api/llm_image.ts:94-104 | when attempt k is the first to succeed, exactly k attempts run and its records are returned |
| ImageLlm.AllAttemptsFail | lib/api/llm_image.ts:106-120 | when every attempt fails, all maxRetries run and the last attempt's error is thrown |
| ImageLlm.NoAttemptAllowed | lib/api/llm_image.ts:120 | with maxRetries <= 0 nothing is sent and the generic error is thrown |
| ImageLlm.SucceedsIffSomeAttemptSucceeds | lib/api/llm_image.ts:56-120 | the pipeline succeeds exactly when some allowed attempt succeeds |
| ImageLlm.DelaysIncrease | lib/api/llm_image.ts:113-116 | one wait after each attempt but the last, strictly increasing |
| ImageLlm.AttemptOnce | lib/api/llm_image.ts:57-111 | the imperative attempt (stream read, parse, stamp) agrees with Attempt |
| ImageLlm.CallLLMWithImage | lib/api/llm_image.ts:49-121 | the retry loop's outcome, attempts and waits are the pipeline's |
| ImageLlm.ImagePrompt | lib/api/llm_image.ts:161 | the prompt is the base prompt, followed by a blank line and the addition when one is given and non-empty |
| ImageLlm.GenerateIngredientsFromImage | lib/api/llm_image.ts:129-164 | the default of three retries: one to three attempts, waits 1000 and 2000 ms |
| Dashboard.WindowDays | lib/db/operations/dashboard.ts:172-177 | thirty days, today-29 to today, strictly increasing, ending today |
| Dashboard.Window | lib/db/operations/dashboard.ts:169-177 | thirty labels, each the formatted window day |
| Dashboard.Trends | lib/db/operations/dashboard.ts:188-191 | one point per row, its formatted day and its parsed count |
| Dashboard.Lookup | lib/db/operations/dashboard.ts:194 | nothing is found exactly when no point has the label; otherwise the first point that has it |
| Dashboard.FillGaps | lib/db/operations/dashboard.ts:193-199 | one point per label, in window order, the first matching point or a zero count |
| Dashboard.LookupSkips | lib/db/operations/dashboard.ts:194 | a point with another label does not affect a lookup |
| Dashboard.OutsidePointIgnored | lib/db/operations/dashboard.ts:193-199 | a point whose label is outside the window does not affect the result |
| Dashboard.LookupPermutation | lib/db/operations/dashboard.ts:194 | with distinct labels, a lookup does not depend on row order |
| Dashboard.FillGapsIgnoresOrder | lib/db/operations/dashboard.ts:193-199 | with distinct labels, the filled trend does not depend on row order |
| Dashboard.UsageTrends | lib/db/operations/dashboard.ts:156-202 | always 30 points labelled by the window; with no rows, counts from 1 to 5; otherwise the gap fill |
| Dashboard.DummyTrends | lib/db/operations/dashboard.ts:180-185 | one point per label, count in 1..5 |
| Dashboard.OldRowIgnored | lib/db/operations/dashboard.ts:188-199 | with an injective format, a row outside the window does not change the trend |
| Dashboard.SingleRowToday | lib/db/operations/dashboard.ts:188-199 | a single row for today puts its count at the last point and zeros elsewhere |
| Dashboard.PopularFromRows | lib/db/operations/dashboard.ts:229-234 | one result per query row, in query order, with the parsed count |
| Dashboard.SliceEnd | lib/db/operations/dashboard.ts:244 | `slice(0, limit)` keeps min(limit, length) items, and length+limit (at least 0) for a negative limit |
| Dashboard.Sink | lib/db/operations/dashboard.ts:249 | one pass extends the sorted prefix by one, a permutation that leaves the rest alone |
| Dashboard.SortByCountDesc | lib/db/operations/dashboard.ts:249 | the array is sorted by count, non-increasing, and a permutation of what it was |
| Dashboard.SortedFallback | lib/db/operations/dashboard.ts:244-249 | the fallback is the first n shuffled names with their counts, sorted non-increasing |
| Dashboard.PopularIngredients | lib/db/operations/dashboard.ts:213-252 | query rows pass through; otherwise the sliced fallback, sorted non-increasing, a permutation of the dummy data |
| Dashboard.DummyData | lib/db/operations/dashboard.ts:244-247 | the i-th dummy item is the i-th shuffled name with count draw+1 |
| Dashboard.FallbackBounds | lib/db/operations/dashboard.ts:244-247 | for a non-negative limit at most limit items, each with a count in 1..20 |
| IngredientImagesRoute.Validate | app/api/ingredients/images/route.ts:7-33 | a body that cannot be read as form data answers 500 with the analysis-failure message, as the catch at route.ts:62-67 does; a missing or empty entry, then a type not starting with `image/`, then a size over 100 MiB, each answered with 400 and its message, in that order; a text field that is not empty answers 500, because reading its type throws |
| IngredientImagesRoute.LimitIsInclusive | app/api/ingredients/images/route.ts:27-33 | exactly 104857600 bytes is accepted, one more is rejected |
| IngredientImagesRoute.TypeCheckedBeforeSize | app/api/ingredients/images/route.ts:19-33 | a large non-image is rejected for its type |
| IngredientImagesRoute.ForwardBody | app/api/ingredients/images/route.ts:48-56 | the body carries the six forwarded fields the ingredient defines, with their values, and updatedAt now |
| IngredientImagesRoute.ForwardDropsStamps | app/api/ingredients/images/route.ts:48-56 | id, status and createdAt are not forwarded |
| IngredientImagesRoute.ForwardBodies | app/api/ingredients/images/route.ts:42-58 | one body per ingredient, in list order |
| IngredientImagesRoute.ForwardAll | app/api/ingredients/images/route.ts:42-61 | requests are sent in order up to and including the first that rejects; redirect when none does, else 500 |
| IngredientImagesRoute.Post | app/api/ingredients/images/route.ts:4-69 | a rejected entry sends nothing; a failed extraction answers 500; otherwise the ingredients are forwarded and the answer is the redirect or 500 |
| RecipePages.Slice | components/pages/RecipesPage.tsx:43-46 | JavaScript `slice`: within bounds it is the subsequence, never longer than the input |
| RecipePages.PageSlice | components/pages/RecipesPage.tsx:42-47 | a page shows at most 10 recipes, those from (p-1)*10, or none past the end |
| RecipePages.TotalPages | components/pages/RecipesPage.tsx:84 | the smallest page count that holds every recipe, 0 for none |
| RecipePages.WithoutId | components/pages/RecipesPage.tsx:66 | removes exactly the recipes with the id |
| RecipePages.WithoutIdAppend | components/pages/RecipesPage.tsx:66 | removal works piecewise, so the others keep their order |
| RecipePages.PageAfterDelete | components/pages/RecipesPage.tsx:70-75 | the page moves to the last page (1 if none) only when it is past the end and above 1 |
| RecipePages.PageAfterDeleteShowsRecipes | components/pages/RecipesPage.tsx:70-75 | from any page, including one the deletion leaves beyond the new last page, the clamped page is at least 1, is 1 when none remain, and shows recipes whenever any remain |
| RecipePages.RangeLabel | components/pages/RecipesPage.tsx:112-119 | no recipes: the empty message; otherwise total, first and last index of the page |
| RecipePages.RangeMatchesSlice | components/pages/RecipesPage.tsx:112-119 | on a valid page the label's range has exactly as many entries as the page shows |
| RecipePages.PageIndicator | components/pages/RecipesPage.tsx:130 | shows the page and the page count, 1 when there are none |
| RecipePages.PageAccepted | components/pages/RecipesPage.tsx:50-53 | a page change is accepted exactly for pages 1 to the page count |
| RecipePages.NextEnabledIsAccepted | components/pages/RecipesPage.tsx:132-134 | an enabled next button leads to an accepted page |
| RecipePages.PrevEnabledIsAccepted | components/pages/RecipesPage.tsx:122-124 | an enabled previous button on a valid page leads to an accepted page |
| RecipePages.StaleTotalAfterDelete | components/pages/RecipesPage.tsx:56-81 | deleting the 11th of 11 recipes from page 2 moves to page 1, yet with the stale count of 11 next stays enabled and page 2 is accepted and shows nothing |
| RecipePages.RecipesPage.constructor | components/pages/RecipesPage.tsx:12-18 | no recipes, page 1, loading, no error |
| RecipePages.RecipesPage.LoadRecipes | components/pages/RecipesPage.tsx:25-37 | success sets the recipes and their count; failure sets the error; loading ends |
| RecipePages.RecipesPage.RefreshDisplayed | components/pages/RecipesPage.tsx:42-47 | the displayed recipes become the current page's slice, nothing else changes |
| RecipePages.RecipesPage.HandlePageChange | components/pages/RecipesPage.tsx:50-53 | the page changes exactly when accepted; nothing else changes |
| RecipePages.RecipesPage.ConfirmDeleteRecipe | components/pages/RecipesPage.tsx:56-81 | only a confirmed delete acts: success removes the id and clamps the page, failure sets the error; the count is never updated |
| IngredientsTable.CategoryColor | components/molecule/Ingredients/ingredientsTable.tsx:24-43 | total: green for 野菜, yellow for 果物 and 卵, red for 肉, blue for 魚 and 冷凍食品, gray for everything else |
| IngredientsTable.CategoryColors | components/molecule/Ingredients/ingredientsTable.tsx:24-43 | over the eight categories, 雑穀 and その他 are gray |
| IngredientsTable.ExpiryClass | components/molecule/Ingredients/ingredientsTable.tsx:146-150 | red exactly when the expiration is strictly before now |
| IngredientsTable.Unselect | components/molecule/Ingredients/ingredientsTable.tsx:116-121 | keeps exactly the selected ingredients whose id differs, never more than there were |
| IngredientsTable.UnselectAppend | components/molecule/Ingredients/ingredientsTable.tsx:116-121 | removal works piecewise over a concatenation, so the kept ingredients keep their order and their repetitions, as `filter` does |
| IngredientsTable.UncheckUndoesCheck | components/molecule/Ingredients/ingredientsTable.tsx:110-123 | unchecking right after checking an unselected ingredient restores the selection |
| IngredientsTable.IngredientsTable.constructor | components/molecule/Ingredients/ingredientsTable.tsx:46-51 | the given cart, dialog closed, no ingredient held |
| IngredientsTable.IngredientsTable.IsChecked | components/molecule/Ingredients/ingredientsTable.tsx:107-109 | checked exactly when some selected ingredient has the row's id |
| IngredientsTable.IngredientsTable.OnCheckedChange | components/molecule/Ingredients/ingredientsTable.tsx:110-123 | checking appends at the end, unchecking removes by id; afterwards the box shows the new state and the dialog is untouched |
| IngredientsTable.IngredientsTable.OnRowClick | components/molecule/Ingredients/ingredientsTable.tsx:96-100 | a click outside the checkbox cell opens the dialog on the row's ingredient, one inside does nothing |
| IngredientsTable.IngredientsTable.OnClose | components/molecule/Ingredients/ingredientsTable.tsx:74-77 | closes the dialog and drops the held ingredient; the cart is kept |
| IngredientsTable.IngredientsTable.OnIngredientUpdated | components/molecule/Ingredients/ingredientsTable.tsx:62-66 | a successful edit resets the dialog as closing does |
| TrendChart.ZeroFillDays | components/molecule/dashboard/userDashboardTrendChart.tsx:30-34 | thirty days, today-30 to today-1 |
| TrendChart.ZeroFill | components/molecule/dashboard/userDashboardTrendChart.tsx:28-36 | thirty points, in order, each count 0 |
| TrendChart.ZeroFillOneDayBehind | components/molecule/dashboard/userDashboardTrendChart.tsx:30-34 | each day is one before the server window's, so today is missing and today-30 extra |
| TrendChart.TrendChart.constructor | components/molecule/dashboard/userDashboardTrendChart.tsx:16-18 | no data, loading, no error |
| TrendChart.TrendChart.LoadTrendData | components/molecule/dashboard/userDashboardTrendChart.tsx:21-48 | non-empty data shown as fetched, empty data zero-filled, error cleared; a failure sets the message; loading ends |
| IngredientForms.Submission | components/molecule/addNewIngredientModal/addNewIngredientForm.tsx:39-44 | submission is blocked exactly by an empty name, an empty unit or a quantity at most 0; otherwise the form is submitted as is |
| IngredientForms.QuantityInput | components/molecule/addNewIngredientModal/addNewIngredientForm.tsx:78-81 | an empty box is 0, anything else `parseInt` of the text |
| IngredientForms.EmptiedQuantityBlocks | components/molecule/addNewIngredientModal/addNewIngredientForm.tsx:78-81 | an emptied quantity box always blocks submission |
| IngredientForms.NegativeQuantityBlocks | components/molecule/addNewIngredientModal/addNewIngredientForm.tsx:40 | a typed negative quantity blocks submission |
| IngredientForms.QuantityReadsBack | components/molecule/addNewIngredientModal/addNewIngredientForm.tsx:78-81 | every integer quantity, 0 included, reads back from its decimal rendering as itself, and an emptied box reads as 0 |
| IngredientForms.NonNumericQuantityPasses | components/molecule/addNewIngredientModal/addNewIngredientForm.tsx:40 | `.5` reads as NaN, which passes the guard |
| IngredientForms.InitialForm | components/molecule/addNewIngredientModal/addNewIngredientForm.tsx:21-33 | name and notes empty, quantity 1, the first category and unit options |
| IngredientForms.InitialFormShape | components/molecule/addNewIngredientModal/addNewIngredientForm.tsx:21-44 | the initial form is a well-formed ingredient, blocked only by its empty name |
| IngredientForms.EditChoices | components/molecule/addNewIngredientModal/editIngredientForm.tsx:16-17 | the edit menus offer all seven units but only 野菜, 肉 and 魚 |
| IngredientForms.AddFormDateNotSubmitted | components/molecule/addNewIngredientModal/addNewIngredientForm.tsx:90-96 | the add form's date, initial or typed, sits under `expiration_date`, and nothing is under `expirationDate`, the key the dialog reads when submitting |
| IngredientForms.EditFormDateSubmittedOnlyWhenEdited | components/molecule/addNewIngredientModal/editIngredientForm.tsx:83-89 | the edit form starts with its date under `expiration_date` only; a typed date is put under `expirationDate`, the key the dialog reads |
| IngredientForms.AddNewIngredientForm.constructor | components/molecule/addNewIngredientModal/addNewIngredientForm.tsx:22-33 | the form starts as the initial form |
| IngredientForms.AddNewIngredientForm.HandleChange | components/molecule/addNewIngredientModal/addNewIngredientForm.tsx:35-37 | sets the one field; every other field is unchanged |
| IngredientForms.AddNewIngredientForm.HandleSubmit | components/molecule/addNewIngredientModal/addNewIngredientForm.tsx:39-44 | submits the form data exactly unless the guard blocks it |
| IngredientForms.EditIngredientForm.constructor | components/molecule/addNewIngredientModal/editIngredientForm.tsx:26 | the form starts as the given ingredient's object form |
| IngredientForms.EditIngredientForm.HandleChange | components/molecule/addNewIngredientModal/editIngredientForm.tsx:28-30 | sets the one field; every other field is unchanged |
| IngredientForms.EditIngredientForm.HandleSubmit | components/molecule/addNewIngredientModal/editIngredientForm.tsx:32-37 | the same guard and submission as the add form |

## Left out

- The SQL queries, the connection pool and the other database operations: query results are input rows. The database orders popular rows by count, and that ordering is not modelled.
- Code after `return` in the database operations is dead and is not modelled.
- The `eval` of the extracted text: an evaluator parameter stands for it, giving an array of records, some other value (on which `.map` throws) or an exception.
- Client construction, credentials, the agent transport and `TextDecoder`: chunks arrive as decoded text, and the agent is a function from invocation to reply.
- Session ids: the retry loop uses the attempt number and the recipe call a caller-chosen number, where the application renders `Date.now()`.
- ImageLlm.Enrich: `crypto.randomUUID()` is an id source parameter, and the two `new Date()` readings per record are one clock reading `now` for the whole list.
- `setTimeout` waits are recorded as delay values, not awaited. The fire-and-forget recipe generation is modelled only as what its continuation computes.
- Dashboard.UsageTrends: `Math.random()` counts are draws given as parameters; `toLocaleDateString` and `Date` day arithmetic are a formatter over day numbers.
- Dashboard.PopularIngredients: the random-comparator shuffle is any permutation given as a parameter, and the counts are draws given as parameters.
- Dashboard.SortByCountDesc: the in-place sort is proved sorted and a permutation; the stability of JavaScript's sort is not stated.
- JsValues.ParseInt: the result is an exact integer, without the rounding beyond 2^53. `Number()` is modelled on the subset the forms use.
- RecipesRoute.Description: lengths and cuts count characters, where JavaScript counts UTF-16 units, so text with astral characters would be cut differently.
- RecipeLlm.PromptShape: stated for dish names that do not start with whitespace; a name that does would be trimmed too.
- RecipeLlm.ConditionsBlockLines and RecipeLlm.IngredientBlockLines: stated for field values without newlines, which would split lines further.
- The `Recipe` and `RecipeSuggestionRequest` type file is not part of this model. Their shape is read from the code that uses them, with integer quantity and people count.
- `CatalogIngredient` in types/ingredients.ts is declared but not used by the modelled code, so it is not modelled.
- IngredientImagesRoute.Post: the base64 conversion of the uploaded file is left out, and the content is given as text. Forwarding failures are a `rejects` parameter, and a forwarded response's status is not examined, as in the code.
- The `GET` handler of the recipes route only wraps a database query.
- React effects run when the model's methods are called: `RefreshDisplayed` stands for the slice effect. Stale closures and batching are not modelled, and the cart shared with the cart page is a field.
- The two ingredient dialogs only copy the form into a call to the ingredient store. The model states only which key they read the date from (`IngredientForms.SubmittedDateKey`). The store call, and the edit dialog adding rather than updating, are not modelled.
- Authentication, middleware, rendering, the layout and pages, and the date input box are plumbing without decision logic.
- IngredientForms.InitialForm: the three `new Date()` readings of the add form are one clock reading `now`.
- IngredientImagesRoute.ForwardBody and IngredientImagesRoute.Post: every forwarded `updatedAt` is one clock reading `now`, where the code reads the clock again for each forwarded request.
- Dashboard.PopularIngredients: the model accepts a negative `limit` and slices as JavaScript does. In the application the database query rejects a negative `limit` before the fallback runs, so that case is unreachable there.
- The persistence transitions of the recipe job are commented out in the code and are not modelled.
