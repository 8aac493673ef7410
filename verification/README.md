# EZYPC storefront core, modelled in Dafny

EZYPC is a single-page storefront for computers. It shows a catalogue of
popular builds fetched from a generative text service, a questionnaire
("wizard") that asks for personalised recommendations, and a detail page per
product that offers a matching used part and keeps loading similar products.
This project models the logic behind those screens and proves what it
promises:

- **Service gateway** (`GeminiService.dfy`, `Json.dfy`, `Prompts.dfy`, `Decimal.dfy`).
  - The client is built lazily, and at most once.
  - The popular-products batch is cached for 24 hours.
  - Every parsed response passes a shape test: a value with an array
    `recommendations` passes unchanged, and any other value resolves to `null`.
  - Errors are rethrown.
  - The three prompts carry the values they are built from.
- **Store page** (`StorePage.dfy`).
  - The filter choices are "All" followed by the distinct product types, in
    JavaScript's default sort order.
  - The filtered list, the visible prefix and the `hasMore` flag.
  - Each load adds three products, capped at the number that remain.
  - A filter that is no longer offered falls back to "All", and any filter
    change shows the first six products again.
- **Application shell** (`App.dfy`).
  - The outcomes of the first fetch.
  - Merging the wizard's recommendations into the catalogue.
  - Navigation, and the choice of what the main area renders.
- **Recommendation wizard** (`RecommendationWizard.dfy`, `Constants.dfy`).
  - The steps, and the answers recorded against their questions.
  - The request after the last question, and the outcome of that request.
- **Product detail page** (`ProductDetailPage.dfy`, `SimilarRequests.dfy`).
  - The used-part match: lower-case the spec, remove the brand words, trim,
    then search for a substring.
  - The purchase options, stably sorted by price.
  - The similar-products list: its exclusion list, the append on a non-empty
    batch, and the latch that stops further fetches.
- **Product card** (`RecommendationCard.dfy`): the key specifications and the badges.
- **Theme hook** (`UseTheme.dfy`).
  - The first theme chosen.
  - The toggle.
  - The effect that keeps the page root's `dark` class and the stored theme in
    step with the theme.

Where the source works by changing state, the model is a class whose methods
state the new state:
- the gateway's module state;
- the store page;
- the application shell;
- the wizard;
- the detail page;
- the theme hook.

The pure computations are functions, and lemmas prove their properties.
`findMatch` is a method with a loop, proved equal to the function `MatchOf`.

An `async` handler is split at its `await`:
- a `Begin…` method (or `HandleAnswer`) runs up to the request and returns
  what is sent;
- a `Finish…` method (or `Receive`) takes the settled reply.

A settled reply is a `Reply`: it threw, it resolved without a batch, or it
resolved to a batch.

The clock, the network call, `JSON.parse`, the API key and the operating
system's colour preference are parameters of the operations that use them.

## Model

| member | source | states |
|---|---|---|
| GeminiService.Interpret | services/geminiService.ts:151-164 | a rejected call, missing or empty text and unparsable text throw; a parsed value resolves to itself exactly when it has an array `recommendations`, otherwise to `null` |
| GeminiService.CacheFreshness | services/geminiService.ts:111-117 | a record written at time t is served (its `data`) while now - t is under 24 hours and is a miss from then on |
| GeminiService.CacheHitNeedsNoService | services/geminiService.ts:111-117 | on a fresh record the result is the stored data whatever the key, the client and the service reply, and the cache is not rewritten |
| GeminiService.StaleRecordRefetched | services/geminiService.ts:111-164 | an expired record leads to a request whose outcome is returned; only a shape-valid batch replaces the record, stamped with the fetch time |
| GeminiService.FetchedBatchServedFromCache | services/geminiService.ts:155-162 | after a miss, a fetched batch is what any call within the next 24 hours returns, whatever its key, client or reply |
| GeminiService.BadShapeResolvesNull | services/geminiService.ts:155-164 | a parsed value without an array `recommendations` resolves to `null` and leaves the cache item unchanged |
| GeminiService.FailuresThrowAndNeverCache | services/geminiService.ts:151-168 | a rejection, empty text or unparsable text makes the call throw (empty text as "Empty response from API"), and a thrown call never writes the cache |
| GeminiService.Client.constructor | services/geminiService.ts:13 | the client holds the key it was built with |
| GeminiService.Gateway.constructor | services/geminiService.ts:4 | no client yet; the cache item is the one in storage; nothing sent |
| GeminiService.Gateway.GetAiClient | services/geminiService.ts:6-16 | an existing client is returned unchanged; without one, a missing or empty key fails with the missing-key error and builds nothing, and a key builds a fresh client with that key; at most one client is ever built |
| GeminiService.Gateway.Send | services/geminiService.ts:139-168 | the outcome is the missing-key error when no client can be had, else the interpreted reply; a request is logged exactly when a client is available |
| GeminiService.Gateway.GetPopularProducts | services/geminiService.ts:110-169 | the outcome is the cache lookup's hit or error, or on a miss the request's outcome; the cache becomes the fetched batch stamped with the fetch time only when a miss was followed by a valid batch; a hit or a broken record sends nothing; an existing client is kept, and a client exists afterwards exactly when one existed or a miss found an API key |
| GeminiService.Gateway.GetPCRecommendation | services/geminiService.ts:197-227 | sends the recommendation prompt for the use case and answers at temperature 0.5, and resolves as the shared request rules say; an existing client is kept, and a client exists afterwards exactly when one existed or an API key is set |
| GeminiService.Gateway.GetSimilarProducts | services/geminiService.ts:229-278 | sends the similar-products prompt for the product and exclusion list at temperature 0.8, and resolves as the shared request rules say; an existing client is kept, and a client exists afterwards exactly when one existed or an API key is set |
| Json.IsBatchShape | services/geminiService.ts:155 | the test `parsed && Array.isArray(parsed.recommendations)` holds exactly for an object whose `recommendations` member is an array |
| Prompts.AnswerBlockEmpty | services/geminiService.ts:173 | the joined answer lines are empty exactly when there are no answers |
| Prompts.RecommendationPromptContents | services/geminiService.ts:172-195 | for any fixed wording, the prompt contains the use case's label, the answer block, every answer line `- question: answer`, and the best-match rule |
| Prompts.GamingBudgetExample | services/geminiService.ts:173-180 | a Gaming prompt with one budget answer contains "Gaming", that question and answer, and the best-match rule |
| Prompts.SimilarProductsPromptContents | services/geminiService.ts:230-241 | for any fixed wording, the prompt contains the product's title, its type name, its rupee price and the exclusion list joined by ", " |
| Prompts.SimilarProductsPromptExcludes | services/geminiService.ts:241 | every excluded title occurs in the prompt |
| Decimal.NatToString | services/geminiService.ts:236 | the price is printed as decimal digits, non-empty, with no leading zero |
| Decimal.DigitsRoundTrip | services/geminiService.ts:236 | the printed digits of n denote n |
| Decimal.IntToStringNonNegative | services/geminiService.ts:236 | a non-negative price prints as digits denoting it |
| Decimal.IntToStringNegative | services/geminiService.ts:236 | a negative price prints as "-" followed by digits denoting its magnitude |
| Constants.Questions | constants.ts:4-59 | each use case has four questions with four options each, the first asking for the budget |
| StorePage.AvailableFilters | components/StorePage.tsx:26-33 | the choices are never empty and start with "All" |
| StorePage.AvailableFiltersMembers | components/StorePage.tsx:26-33 | a type is offered exactly when some product has it; "All" comes first |
| StorePage.AvailableFiltersOrder | components/StorePage.tsx:30-32 | after "All" come type filters only, each once, in strictly ascending code-unit order of their names |
| StorePage.TypeOrderSorted | components/StorePage.tsx:31 | "Custom Build" < "Laptop" < "Prebuilt PC" in JavaScript's default string order |
| StorePage.SortedTypesSorted | components/StorePage.tsx:30-31 | the distinct present types are in strictly ascending name order |
| StorePage.FilteredSpec | components/StorePage.tsx:35-38 | "All" keeps the list; a type filter keeps exactly the products of that type, in their order, each as many times as it occurs |
| Seqs.FilterCount | components/StorePage.tsx:35-38 | a filter keeps every element that passes as many times as it occurs, and no other element |
| StorePage.Visible | components/StorePage.tsx:50-52 | the visible products are a prefix of the filtered ones of length min(visibleCount, filtered count) |
| StorePage.HasMoreMeansHidden | components/StorePage.tsx:54 | `hasMore` holds exactly when some filtered product is not visible |
| StorePage.LoadStepProgress | components/StorePage.tsx:61 | while more remain, a load adds between one and three products and never passes the filtered count |
| StorePage.LoadsExhaust | components/StorePage.tsx:56-66 | after enough loads every filtered product is visible and the count equals the filtered count |
| StorePage.Settle | components/StorePage.tsx:40-44 | the filter kept is offered; an offered filter is kept, any other becomes "All" |
| StorePage.StoreView.constructor | components/StorePage.tsx:20-21 | the page starts on "All" with six products visible |
| StorePage.StoreView.Shown | components/StorePage.tsx:50-52 | never more products are shown than were given |
| StorePage.StoreView.SelectFilter | components/StorePage.tsx:40-48 | the active filter becomes the chosen one if offered, else "All"; a change of filter resets the count to six; the active filter stays on offer |
| StorePage.StoreView.SetProducts | components/StorePage.tsx:26-48 | a filter no longer offered becomes "All" and the count resets to six; otherwise filter and count are kept |
| StorePage.StoreView.LoadMore | components/StorePage.tsx:56-66 | with more to show the count becomes min(count + 3, filtered count) and grows; otherwise nothing changes |
| App.MergeRecommended | App.tsx:74-80 | the merged list holds every recommendation and at most all old products besides |
| App.MergeRecommendedSpec | App.tsx:74-80 | the list starts with the recommendations in order, each tagged "Recommended for You" and otherwise unchanged, followed by exactly the old products whose title no recommendation has, in their old order and each as many times as before |
| App.MergeRemovesSameTitle | App.tsx:75-78 | no old product shares a title with a recommendation in the merged list |
| App.ViewForSpec | App.tsx:96-124 | the error screen shows exactly when there is an error and no product; the skeleton exactly while loading with no product; the detail page exactly for a selection on the detail page; otherwise the store |
| App.ViewDetailsShowsProduct | App.tsx:119-120 | the detail page for a selected product shows that product unless an error left the list empty |
| App.AppState.constructor | App.tsx:18-24 | store page, no products, no selection, loading, no error, wizard closed, intro running |
| App.AppState.BeginFetch | App.tsx:42-44 | loading starts and the error is cleared |
| App.AppState.CompleteIntro | App.tsx:26-31 | the intro ends and the first fetch begins |
| App.AppState.FinishFetch | App.tsx:45-57 | a batch replaces the products; no batch sets "Could not load products…"; a thrown error sets the API-key message and keeps the products; loading always ends |
| App.AppState.Navigate | App.tsx:66-72 | the page changes; going to the store clears the selection |
| App.AppState.WizardComplete | App.tsx:74-83 | the products become the merge of the recommendations into the old list; the wizard closes; the store shows |
| App.AppState.ViewDetails | App.tsx:85-89 | the product is selected and the detail page shows; the rendered screen is that product's detail page unless an error left the list empty |
| App.AppState.BackToStore | App.tsx:91-94 | the selection is cleared and the store shows |
| App.AppState.OpenWizard | App.tsx:116 | the wizard opens |
| App.AppState.CloseWizard | App.tsx:142 | the wizard closes |
| RecommendationWizard.Wizard.constructor | components/RecommendationWizard.tsx:20-24 | the wizard starts on use-case selection with nothing answered |
| RecommendationWizard.Wizard.HandleStart | components/RecommendationWizard.tsx:26-31 | the chosen use case starts its questions from the first, with no answers |
| RecommendationWizard.Wizard.HandleAnswer | components/RecommendationWizard.tsx:33-42 | with no use case nothing happens; otherwise the answer is recorded against the current question, and either the next question follows or, after the last, generation starts and the four answers, one per question in order, are sent |
| RecommendationWizard.Wizard.ResetAndClose | components/RecommendationWizard.tsx:60-67 | back to use-case selection with everything cleared |
| RecommendationWizard.Wizard.Receive | components/RecommendationWizard.tsx:43-57 | a batch is handed on and the wizard resets; no batch or a thrown error shows its message on the error step and keeps the answers |
| ProductDetailPage.Lower | components/ProductDetailPage.tsx:35 | same length; upper-case ASCII letters become lower-case, everything else is kept |
| ProductDetailPage.FirstPrefixSpec | components/ProductDetailPage.tsx:35 | an alternation matches at the start exactly when one of its alternatives is a prefix, and then with the length of the first such alternative in pattern order |
| ProductDetailPage.BrandAtSpec | components/ProductDetailPage.tsx:35 | a brand is found at the start exactly when one of amd, nvidia, intel, geforce, rtx, gtx starts the string, and its length is that of the first one listed that does |
| ProductDetailPage.RemoveBrands | components/ProductDetailPage.tsx:35 | the result is never longer than the input |
| ProductDetailPage.RemoveMatchesSpec | components/ProductDetailPage.tsx:35 | a global replace by the empty string keeps the other characters in order, and changes nothing when no match starts anywhere |
| ProductDetailPage.RemoveMatchesKeepsPlainPrefix | components/ProductDetailPage.tsx:35 | the text before the first match is kept whole, and the replace continues on the rest |
| ProductDetailPage.RemoveMatchesDropsFirst | components/ProductDetailPage.tsx:35 | the first match is dropped whole, and the replace continues right after it |
| ProductDetailPage.RemoveBrandsSpec | components/ProductDetailPage.tsx:35 | removing brands keeps the other characters in order, leaves a string with no brand unchanged, keeps the text before the first brand whole and drops that brand whole |
| ProductDetailPage.TrimSlice | components/ProductDetailPage.tsx:35 | the trimmed text is the slice of the input that starts after its leading white space, with only white space after it |
| ProductDetailPage.TrimSpec | components/ProductDetailPage.tsx:35 | trimming removes white space at the two ends only: the result is a slice of the input with only white space around it, neither starts nor ends with white space, and is empty exactly when the input is all white space |
| ProductDetailPage.FindPart | components/ProductDetailPage.tsx:36-38 | a part found is the first part in table order whose core occurs in the spec's core; none found means no part's core occurs |
| ProductDetailPage.NoMatchSpec | components/ProductDetailPage.tsx:33-42 | there is no match exactly when no used part fits any component |
| ProductDetailPage.MatchIsFirstFit | components/ProductDetailPage.tsx:33-42 | a match fits a component that no earlier component has a fitting part for, and is the first part in table order that fits it |
| ProductDetailPage.FindMatch | components/ProductDetailPage.tsx:33-42 | the loop returns the match of the components against the used-parts table |
| ProductDetailPage.SortByPrice | components/ProductDetailPage.tsx:101-103 | the sorted options are a permutation of the given ones |
| ProductDetailPage.SortByPriceSpec | components/ProductDetailPage.tsx:101-103 | the sorted options are in ascending price order, a permutation of the input, and options of equal price keep their given order |
| ProductDetailPage.CheapestFirst | components/ProductDetailPage.tsx:101-103 | the first sorted option is one of the given options and no given option is cheaper |
| ProductDetailPage.ExcludeListSpec | components/ProductDetailPage.tsx:67 | the exclusion list is the product's title followed by every similar product's title, in order |
| ProductDetailPage.DetailPage.constructor | components/ProductDetailPage.tsx:25-29 | no similar products, loading, more may come, no used part |
| ProductDetailPage.DetailPage.BeginInitialFetch | components/ProductDetailPage.tsx:60-67 | the exclusions name the similar products shown before the list is cleared; the list is emptied, loading and more-to-come set |
| ProductDetailPage.DetailPage.Mount | components/ProductDetailPage.tsx:32-44 | the used part is the match of the product's components, and the first fetch begins |
| ProductDetailPage.DetailPage.ShowProduct | components/ProductDetailPage.tsx:82-85 | a new product has its used part looked up again; a new title restarts the similar list with a first fetch, the same title leaves it alone |
| ProductDetailPage.DetailPage.LoaderIntersect | components/ProductDetailPage.tsx:87-98 | a further fetch starts, excluding the product and every similar product shown, exactly when the first batch is in and more may come |
| ProductDetailPage.DetailPage.FinishFetch | components/ProductDetailPage.tsx:66-79 | a non-empty batch is appended; an empty or missing batch or an error stops further fetching; only the first fetch clears the loading flag; once stopped, fetching stays stopped |
| SimilarRequests.SimilarRequestExcludesShown | components/ProductDetailPage.tsx:67-68 | the request for more similar products names the product and every similar product shown in its prompt |
| RecommendationCard.KeySpecs | components/RecommendationCard.tsx:33 | at most four key specifications |
| RecommendationCard.KeySpecsSpec | components/RecommendationCard.tsx:33 | the key specs are components named Processor, Graphics Card, RAM or Storage, in the product's order: the first four qualifying components, or all of them when fewer qualify |
| RecommendationCard.Badges | components/RecommendationCard.tsx:54-63 | at most two badges |
| RecommendationCard.BadgesSpec | components/RecommendationCard.tsx:54-63 | the tag badge shows exactly when the product has a tag, with that tag; "Best Match" shows exactly for the best match, after the tag |
| UseTheme.InitialTheme | hooks/useTheme.ts:14 | the first theme is never empty |
| UseTheme.InitialThemePriority | hooks/useTheme.ts:10-15 | a non-empty stored theme wins over the OS preference; without one the theme is dark exactly when the OS prefers dark; a stored light, dark or nothing gives light or dark |
| UseTheme.Toggled | hooks/useTheme.ts:30 | the toggle yields light or dark, and dark exactly from light |
| UseTheme.ToggleTwice | hooks/useTheme.ts:29-31 | toggling changes light or dark, and toggling twice restores it |
| UseTheme.ThemeHook.constructor | hooks/useTheme.ts:6 | the theme starts as light; the page is as found |
| UseTheme.ThemeHook.SyncEffect | hooks/useTheme.ts:18-27 | the root has the `dark` class exactly for the dark theme, and storage holds the theme |
| UseTheme.ThemeHook.Mount | hooks/useTheme.ts:8-16 | the theme becomes the initial theme read from the storage found on mount and the OS preference, and the page is synced with it |
| UseTheme.ThemeHook.Toggle | hooks/useTheme.ts:29-31 | the theme is toggled and the page is synced with it |

## Left out

- The call to the generative text service is left out. So are its model
  options and response schemas, `response.text` and `JSON.parse`. Instead,
  the model takes the call's outcome and the parse result as inputs.
- The schema is a type assertion in the source, with no runtime check behind
  it. The model does not convert parsed JSON into products: a batch reaches
  the pages as a `Reply` that already holds products.
- `JSON.stringify` of the cache record is left out. The record is stored as
  the parsed value it denotes.
- Failures of `localStorage` (quota, access denied) are left out.
- GeminiService.Gateway.GetPopularProducts treats a cache record whose
  `timestamp` is not a JSON number as expired. JavaScript would instead
  coerce strings, booleans and `null` to numbers in the subtraction.
- The clock is two parameters:
  - the reading for the freshness test;
  - the later reading stamped on a record that is written.
- The popular-products prompt is a constant, and nothing is proved about its
  text.
- The recommendation and similar-products prompts are proved to contain their
  values for any fixed wording around them, including the wording sent. No
  lemma inspects the literal instruction text itself.
- The model name and the temperatures are constants on the logged request.
- Console logging is left out.
- Concurrency is left out:
  - the interleaving of several pending requests;
  - replies arriving after a component unmounts;
  - React's batching of state updates.

  Each `await` is one method before the request and one after the reply. The
  model allows a wizard reply to arrive after a restart.
- StorePage.StoreView.LoadMore applies its step at once, using the current
  filtered count. The source waits 400 ms and uses the count captured when the
  observer was created.
- `IntersectionObserver`, the scroll listener, `window.scrollTo` and the
  preloading of lazy pages are left out. A scroll into view is an event
  (`LoadMore`, `LoaderIntersect`).
- The 1.2 s intro timer is left out. Its firing is the event `CompleteIntro`.
- The wizard's `onClose` and `onComplete` callbacks are not wired to the
  shell:
  - `Receive` returns the batch handed to `onComplete`;
  - the shell's `CloseWizard` and `WizardComplete` model what those callbacks
    do.
- Decimal.NatToString prints integers only. Prices and the other JavaScript
  `number` fields (types.ts:32, 50, 60, 68) are integers (`int`) in the model.
  Printing with `${}` matches JavaScript only below 10^21, where JavaScript
  switches to exponent notation. Fractional prices and ratings are not
  printed.
- ProductDetailPage.Lower maps only ASCII upper-case letters. JavaScript's
  `toLowerCase` also maps non-ASCII letters.
- ProductDetailPage.DetailPage.ShowProduct looks the used part up again for
  every new product. The source reruns that effect when the identity of the
  `components` array changes, which gives the same result for equal components.
- The average rating is left out, because it uses floating-point division and
  `toFixed`.
- The `Intl` currency formatting is left out.
- The used-parts table (data/usedPartsData.ts) is reproduced as data and has
  no contract of its own.
- The presentational components are not part of this model. These are the
  used-parts page, the header, the filter bar, the price chart, the reviews,
  the intro animation, the theme toggle button, the skeletons, the lazy image
  and the grid effects.
