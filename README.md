# Recipe listing filters, pagination and review panel — a Dafny model

This project models two parts of a recipe-sharing web app (a Next.js
front end).

The first is the recipe listing page, `src/app/recipes/page.tsx`. It covers:

- the nine filter criteria;
- **URL seeding**: reading the criteria from the page's query string, with
  id lists split on `,`, empty pieces dropped, and flags true only for
  `"true"`;
- the **request parameters** of the listing request. An optional parameter
  is appended only when its condition holds. The parameters follow a fixed
  order and always end with `page` and `limit=20`;
- the **fetch routine**: the loading flags set when a fetch starts, and the
  list replaced or extended when it completes. The server's pagination is
  adopted, and the flags are cleared on every exit;
- **clear filters**, the **load-more** guard and `hasActiveFilters`.

The second is the review panel, `src/components/recipe_page/RecipeReviews.tsx`.
It covers the empty guard, the Croatian count word, the five-star fill, the
edit gate, the avatar initial and one entry per review.

The files are:

- `wrappers.dfy`: `Option`.
- `js_text.dfy`: the JavaScript string operations the page relies on:
  - `trim`;
  - `split(",")`;
  - `join(",")`;
  - `filter(Boolean)` on strings;
  - `parseInt(s, 10)` and `Number.prototype.toString`.
- `recipe_filters.dfy`: the criteria, query strings as sequences of
  key/value pairs, URL seeding, `hasActiveFilters`, and the request
  parameters. They are built by successive conditional appends in the
  method `BuildParams`, which is proved equal to the function
  `RequestParams`.
- `recipe_list.dfy`: the result accumulator, and the class
  `RecipeListController`. Its fields are the page's state cells and its
  methods are the page's state updates.
- `recipe_reviews.dfy`: the review panel as a pure function of the reviews
  and the current user id.

Two facts about the page follow from the model:

- **`hasActiveFilters` does not trim, but the request does.** A search text of
  blanks counts as an active filter, yet the request carries no filter
  (`BlankSearchActiveButUnsent`). The same holds for a numeric bound such as
  `"abc"` that does not parse to a positive integer.
- **A request read back as a query string gives the criteria normalised**
  (`UrlRoundTrip`, `SeedRoundTrip`). The texts come back trimmed, and a bound
  that was not sent comes back empty. Ids come back unchanged provided none
  is empty or contains `,`.

Notes on what the code does:

- A response without `pagination` keeps the previous pagination. It is not
  replaced.
- After "load more", `currentPage` is whatever the server reports, not a
  locally computed N+1.
- Id lists are ordered arrays, not sets.
- The numeric bounds are held as the raw text typed, not as optional
  integers.

## Model

| member | source | states |
|---|---|---|
| JsText.TrimSpec | src/app/recipes/page.tsx:129-130 | `trim` gives the empty string exactly for all-whitespace text; otherwise the result starts and ends with a non-whitespace character |
| JsText.TrimIsInfix | src/app/recipes/page.tsx:129-130 | the trimmed text is a contiguous slice of the input, and everything removed on both sides is whitespace |
| JsText.TrimIdempotent | src/app/recipes/page.tsx:129-130 | trimming twice equals trimming once |
| JsText.TrimStartSpec | src/app/recipes/page.tsx:150 | the leading-whitespace skip (also used by `parseInt`) leaves a suffix that does not start with whitespace, and drops only whitespace |
| JsText.TrimEndSpec | src/app/recipes/page.tsx:129-130 | dropping trailing whitespace leaves a prefix that does not end with whitespace, and drops only whitespace |
| JsText.Split | src/app/recipes/page.tsx:65 | `split(",")` always yields at least one piece |
| JsText.SplitSpec | src/app/recipes/page.tsx:65 | no piece contains the separator, and joining the pieces with it gives the input back |
| JsText.SplitJoin | src/app/recipes/page.tsx:65 | splitting a join of separator-free pieces recovers the pieces exactly |
| JsText.DropEmptySpec | src/app/recipes/page.tsx:65 | `filter(Boolean)` leaves only non-empty pieces, each one of the originals; every non-empty piece is kept as many times as it occurs, and nothing goes when no piece is empty |
| JsText.DropEmptyAppend | src/app/recipes/page.tsx:65 | filtering a concatenation is the concatenation of the filtered parts, so the kept pieces stay in their order |
| JsText.LeadingDigits | src/app/recipes/page.tsx:150 | the digit run `parseInt` reads is no longer than the input and consists of decimal digits only |
| JsText.LeadingDigitsSpec | src/app/recipes/page.tsx:150 | the digit run is a prefix of the text and stops at the first non-digit |
| JsText.PositiveIntCharacterised | src/app/recipes/page.tsx:150 | `parseInt(s, 10) > 0` holds iff, after leading whitespace, there is no minus sign and the digit run after the optional sign has a non-zero digit |
| JsText.PositiveIntIsNonEmpty | src/app/recipes/page.tsx:150 | the guard `maxPrepTime &&` is implied by `parseInt(maxPrepTime, 10) > 0` |
| JsText.NatDigits | src/app/recipes/page.tsx:156 | the decimal digits of a natural number are non-empty digits whose value is the number, with no leading zero except for 0 itself |
| JsText.ParseDecimal | src/app/recipes/page.tsx:156 | `parseInt(n.toString(), 10)` gives `n` back, so the page number sent is the one read |
| RecipeFilters.Classify | src/app/recipes/page.tsx:63-74 | a query key name is read as the key whose name it is |
| RecipeFilters.ClassifyName | src/app/recipes/page.tsx:63-74 | reading a canonical key's name gives the key back, so key names are one-to-one |
| RecipeFilters.DecodeGet | src/app/recipes/page.tsx:63-74 | looking a key up in a query string decoded into keys finds the first value written under the key's name |
| RecipeFilters.UrlCriteriaByName | src/app/recipes/page.tsx:63-74 | seeding reads each criterion under its own name: `search`, `categoryIds`, `allergyIds`, `difficultyIds`, `isVegan`, `isVegetarian`, `ingredientSearch`, `maxPrepTime`, `minServings` |
| RecipeFilters.SearchParamSeeds | src/app/recipes/page.tsx:62-97 | `?search=pasta` seeds the search text "pasta" and leaves every other criterion empty |
| RecipeFilters.GetFirst | src/app/recipes/page.tsx:63-74 | `searchParams.get` gives nothing iff no pair has the key, and otherwise the value of the first pair under the key |
| RecipeFilters.IdsFromParamWellFormed | src/app/recipes/page.tsx:64-69 | ids read from a parameter are never empty and never contain `,` |
| RecipeFilters.IdsRoundTrip | src/app/recipes/page.tsx:64-69 | `,`-free ids joined with `,` and read back with split-and-filter come back with the empty ones dropped and the rest in order; well-formed ids (none empty) come back exactly, the empty list included |
| RecipeFilters.UrlIdsWellFormed | src/app/recipes/page.tsx:62-75 | the three id lists seeded from any query string are well formed |
| RecipeFilters.SeedFromUrl | src/app/recipes/page.tsx:76-97 | seeding happens iff the values read make some filter active, and then all nine cells take exactly those values |
| RecipeFilters.NoFilterKeysNoSeed | src/app/recipes/page.tsx:62-97 | a query string naming none of the nine filter keys seeds nothing |
| RecipeFilters.NoFiltersInactive | src/app/recipes/page.tsx:293-302 | the cleared criteria are not active, and they are the only criteria that are not |
| RecipeFilters.OptionalParamAgrees | src/app/recipes/page.tsx:129-155 | the n-th conditional append uses the key at position n, and it appends exactly when that key has a filter value, and with that value |
| RecipeFilters.BuildParams | src/app/recipes/page.tsx:127-157 | the successive appends build exactly the request parameters `RequestParams(c, page)` |
| RecipeFilters.FilterPrefixGet | src/app/recipes/page.tsx:129-155 | after the first n conditional appends, each key before position n holds its filter value and every other key is absent |
| RecipeFilters.RequestParamsGet | src/app/recipes/page.tsx:127-157 | every key of the request holds what the page appends under it: each optional parameter exactly under its condition, `page` as the decimal page number, `limit` as 20, and no other key |
| RecipeFilters.RequestKeysAscending | src/app/recipes/page.tsx:127-157 | keys come in the fixed order, each at most once, and the last two entries are always `page` and then `limit` |
| RecipeFilters.SendsFiltersByKey | src/app/recipes/page.tsx:129-155 | the request carries an optional parameter iff some filter key has a value |
| RecipeFilters.FilterParamsEmpty | src/app/recipes/page.tsx:127-157 | the request is exactly `page` and `limit` iff no optional condition holds |
| RecipeFilters.SentBoundStable | src/app/recipes/page.tsx:150-155 | a numeric bound is sent as typed exactly when it is positive, and a sent bound stays sent |
| RecipeFilters.NormaliseIdempotent | src/app/recipes/page.tsx:129-155 | normalising criteria the way a request does (trim texts, blank unsent bounds) is idempotent |
| RecipeFilters.NormaliseActive | src/app/recipes/page.tsx:129-155 | on normalised criteria, "some filter is active" and "the request carries a filter" coincide, and normalising does not change what is sent |
| RecipeFilters.SentFiltersAreActive | src/app/recipes/page.tsx:326-337 | whenever the request carries a filter, `hasActiveFilters` is true |
| RecipeFilters.BlankSearchActiveButUnsent | src/app/recipes/page.tsx:326-337 | the converse fails: a blank search text is active while the request carries only `page` and `limit` |
| RecipeFilters.UrlRoundTrip | src/app/recipes/page.tsx:62-75 | reading a request's parameters back as a query string gives the criteria normalised, when ids are well formed |
| RecipeFilters.SeedRoundTrip | src/app/recipes/page.tsx:62-97 | seeding from a request's parameters adopts the normalised criteria iff the request carries a filter, and seeds nothing otherwise |
| RecipeList.ShownAfterIsConcatenation | src/app/recipes/page.tsx:168-172 | loading page 1 with a reset and then pages 2..n by "load more" shows the n batches concatenated in page order, whatever was shown before |
| RecipeList.AccumulateAppends | src/app/recipes/page.tsx:170-172 | a load-more page keeps the shown recipes as a prefix and adds the batch after them; the length grows by the batch size |
| RecipeList.RecipeListController.constructor | src/app/recipes/page.tsx:27-53 | the initial state cells: no filters, no recipes, no pagination, full loading state, page 1 |
| RecipeList.RecipeListController.SeedFromLocation | src/app/recipes/page.tsx:62-100 | the filter cells take the values read from the query string iff one is active; nothing else changes |
| RecipeList.RecipeListController.BeginFetch | src/app/recipes/page.tsx:115-161 | a first load or reset sets the loading flag and page 1, otherwise the filtering flag; the load-more flag is set for pages above 1; the request carries the current criteria's parameters |
| RecipeList.RecipeListController.Complete | src/app/recipes/page.tsx:162-189 | on a response the list is replaced or extended, the pagination and page are adopted when present, and the first load ends; on failure the list, pagination, page and first-load flag are unchanged; all three loading flags are off either way |
| RecipeList.RecipeListController.FetchPage | src/app/recipes/page.tsx:115-189 | one whole fetch run: the request made and the resulting state, for success and for failure |
| RecipeList.RecipeListController.CriteriaEffect | src/app/recipes/page.tsx:194-217 | a criteria change fetches page 1 with a reset, using the current criteria |
| RecipeList.RecipeListController.ClearFilters | src/app/recipes/page.tsx:293-305 | all criteria empty or false, `hasActiveFilters` false, page 1, no pagination; the list and the flags stay |
| RecipeList.RecipeListController.LoadMore | src/app/recipes/page.tsx:307-324 | a fetch happens iff pagination is present with `hasMore`, and then for page `currentPage + 1`, without reset and with the criteria unchanged, with the same flag changes as any fetch start; otherwise no state changes |
| RecipeReviews.CountWordForms | src/components/recipe_page/RecipeReviews.tsx:35-40 | the count word is "recenzije" exactly for 2, 3 and 4 reviews, and "recenzija" for every other count, 1 included |
| RecipeReviews.StarRow | src/components/recipe_page/RecipeReviews.tsx:89-98 | a row of `count` stars in which star i is filled iff i < rating |
| RecipeReviews.StarRowFilled | src/components/recipe_page/RecipeReviews.tsx:89-98 | the number of filled stars in a row is the rating clamped to 0..count |
| RecipeReviews.StarsShape | src/components/recipe_page/RecipeReviews.tsx:89-98 | exactly five stars, min(max(rating, 0), 5) of them filled, with every filled star before every empty one |
| RecipeReviews.CanEditIff | src/components/recipe_page/RecipeReviews.tsx:82 | the edit control shows iff the current user id is present, non-empty and equal to the review's author id |
| RecipeReviews.UpperChar | src/components/recipe_page/RecipeReviews.tsx:62 | `toUpperCase` on one character yields one or two characters |
| RecipeReviews.UpperCharIdempotent | src/components/recipe_page/RecipeReviews.tsx:62 | an upper-cased initial is left unchanged by upper-casing it again |
| RecipeReviews.CroatianInitials | src/components/recipe_page/RecipeReviews.tsx:62 | č, ć, đ, š and ž become Č, Ć, Đ, Š and Ž |
| RecipeReviews.AvatarFallbackShape | src/components/recipe_page/RecipeReviews.tsx:61-65 | the icon shows iff the name is absent or empty; otherwise the initial is the name's first character upper-cased: one or two upper-case characters, the capital of a Basic Latin first letter |
| RecipeReviews.RenderEntriesInOrder | src/components/recipe_page/RecipeReviews.tsx:46 | one entry per review, entry i rendered from review i |
| RecipeReviews.RenderReviews | src/components/recipe_page/RecipeReviews.tsx:24 | the panel renders nothing iff there are no reviews |
| RecipeReviews.PanelShowsEachReview | src/components/recipe_page/RecipeReviews.tsx:46-103 | each review's entry has its key and stars, shows the text iff it is non-empty, and shows the edit control iff the review is the current user's |

## Left out

- Debounce timing: the 500 ms wait and the superseding of a pending call
  are not modelled. Each fetch is an atomic `BeginFetch`/`Complete` pair,
  so out-of-order completion of overlapping fetches is not modelled either.
- The closure captures `isInitialLoad` when it is created. The model reads
  the cell's current value, so a stale captured value is not modelled.
- Network, `toast`, `console.error` and `router.replace` are left out. A
  fetch's outcome is a parameter (`FetchOutcome`): a parsed response, or
  failure (not ok, thrown, or a body that does not parse).
- The response shape `data.recipes || data` is left out. A response is a
  recipe sequence with an optional pagination.
- The filter-option loader (categories, allergies and difficulties with the
  label "name (razina N)") is left out as I/O orchestration. So are the
  user-allergy seeding and the session lookup.
- Query strings are sequences of already decoded key/value pairs. Percent
  encoding, `URLSearchParams.toString` and the `?` in the URL are not
  modelled. Inside the model a pair's name is read as a key
  (`RecipeFilters.Decode`): one of the eleven known keys, or `Other(name)`
  only for a name that is none of theirs.
- JsText.ParseInt: integers are unbounded. Only `> 0` of the result is
  used, so the floating-point rounding of very long digit runs does not
  matter.
- RecipeReviews.UpperChar: the upper-case mapping covers Basic Latin,
  Latin-1 and Latin Extended-A (which includes the Croatian letters). Other
  characters are kept unchanged, and full Unicode case mapping is not
  modelled. `charAt(0)` is taken as the first Unicode character, not the
  first UTF-16 code unit.
- The review date (`toLocaleDateString("hr-HR")`), JSX layout, styling and
  `router.refresh` are not modelled.
- RecipeList.RecipeListController.SeedFromLocation: it changes only the
  filter cells. The refetch that follows any change of criteria is the
  separate `CriteriaEffect`, which also follows `ClearFilters`.
