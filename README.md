# A verified model of the prototype content site's data layer

The repository is a Next.js prototype of a technical blog with a dashboard and
an expense claim form. Its data comes from an in-memory mock database,
`MockDatabase`, filled at start-up by random generators. The pages call the
database to list, page, search and rank articles, to read comments and
analytics, to count articles per category and tag, and to record views.
This project models that core in Dafny and proves what it promises:

- `Types` mirrors the records of `src/lib/types.ts`: authors, categories,
  articles, comments and analytics.
- `JsSemantics` gives the JavaScript built-ins the core relies on their exact
  meaning:
  - `Array.prototype.slice`, with negative and out-of-range indices;
  - `filter`, `find` and `findIndex`;
  - `sort` with a `b.k - a.k` comparator, as a stable sort into non-increasing
    key order;
  - ASCII `toLowerCase`, `includes` and the first-match `replace`.
- `MockDataGenerators` models `src/lib/mock-data-generators.ts`:
  - the fixed authors and categories;
  - `Math.random()` as a stream of draws in `[0, 1)` held by a `RandomSource`
    object;
  - `randomNumber`, `randomElement`, `randomElements` and `randomDate`;
  - the slug normaliser;
  - the article, comment and analytics generators.
- `MockDb` models `src/lib/mock-db.ts`. `MockDatabase` is a class with the
  same four fields: articles, comments, analytics and the request log. Each
  method is either a method that updates those fields or a function over
  them. The specification functions beside it state what each query returns:
  - `ArticlesPage`: filter, then page;
  - `PopularTags`: a tag tally, ranked;
  - `Related`: a scored ranking.

  Lemmas prove the rankings complete and dominant. Every article left out of a
  ranked result ranks no higher than each one kept.
- `Pagination` models the page selector of
  `src/components/ui/Pagination/index.tsx`. `getPageNumbers` is a method with
  its loop. The lemmas establish:
  - the window of five pages;
  - the first and last page;
  - the ellipses;
  - the previous and next buttons.
- `ExpenseSchema` models the validation rules of `src/app/expense/schema.ts`.
  The rules cover an item's category, amount, usage date and receipt flag, and
  a form of one to ten items. Parsing collects every issue and succeeds
  exactly when the rules hold.

Clock reads (`Date.now()`, `new Date()`) become a `now` parameter in
milliseconds. `Math.random()` becomes the `RandomSource` draw stream.

## Model

| member | source | states |
|---|---|---|
| JsSemantics.Slice | src/lib/mock-db.ts:79 | `slice(start, end)` returns at most `end - start` elements taken from the input; for non-negative bounds it is the clamped sub-sequence |
| JsSemantics.ResolveIndex | src/lib/mock-db.ts:79 | a negative `slice` index counts back from the end and every index is clamped to the length |
| JsSemantics.SlicePrefix | src/lib/mock-db.ts:99 | `slice(0, n)` is a prefix of length `min(n, len)` for `n >= 0` and `max(len + n, 0)` for negative `n` |
| JsSemantics.Filter | src/lib/mock-db.ts:111 | `filter` keeps exactly the elements satisfying the predicate, in their order |
| JsSemantics.FilterLength | src/lib/mock-db.ts:169-171 | the length of a filtered list is the number of elements satisfying the predicate |
| JsSemantics.Find | src/lib/mock-db.ts:92 | `find` returns the first element that satisfies the predicate, and none exactly when no element does |
| JsSemantics.FindIndex | src/lib/mock-db.ts:175 | `findIndex` returns the first index satisfying the predicate, or none when no element does |
| JsSemantics.SortDesc | src/lib/mock-db.ts:98 | sorting by a `b.k - a.k` comparator yields a permutation of the input in non-increasing key order |
| JsSemantics.SortDescStable | src/lib/mock-db.ts:98 | the sort is stable: elements with equal keys keep their relative order |
| JsSemantics.SortDescCount | src/lib/mock-db.ts:194 | sorting preserves how many elements satisfy any predicate |
| JsSemantics.Top | src/lib/mock-db.ts:97-99 | sort-then-`slice(0, n)` is a sorted prefix of the sorted list drawn from the input, of length `min(n, len)` for `n >= 0` |
| JsSemantics.TopKeysDominate | src/lib/mock-db.ts:97-99 | every element left out of the top `n` has a key no larger than any element kept |
| JsSemantics.TopCount | src/lib/mock-db.ts:192-195 | the top `n` hold no more matches of a predicate than the input, and all of them when fewer than `n` are returned |
| JsSemantics.TopAll | src/lib/mock-db.ts:97-99 | when `n` is at least the length, the top `n` is a permutation of the input |
| JsSemantics.ToLower | src/lib/mock-db.ts:206 | `toLowerCase` keeps the length and lowers each character |
| JsSemantics.ToLowerNoCapitals | src/lib/mock-db.ts:206 | a lowered string holds no capital `A`-`Z`, and every other character is unchanged |
| JsSemantics.IncludesAt | src/lib/mock-db.ts:209-212 | `includes` holds exactly when the needle is a prefix of some suffix of the haystack |
| JsSemantics.IncludesEmpty | src/lib/mock-db.ts:206-213 | every string includes the empty string |
| JsSemantics.ReplaceFirst | src/lib/mock-data-generators.ts:271-277 | `replace` with a string pattern leaves the text unchanged when the pattern is absent and replaces a leading occurrence |
| JsSemantics.ReplaceFirstSpec | src/lib/mock-data-generators.ts:271-277 | `replace` with a string pattern replaces the first occurrence of the pattern, wherever it lies, and keeps the text before and after it; a text without the pattern is unchanged |
| MockDataGenerators.RandomSource.Next | src/lib/mock-data-generators.ts:138 | each `Math.random()` call returns the next draw, which lies in `[0, 1)` |
| MockDataGenerators.RandomIndex | src/lib/mock-data-generators.ts:137-139 | `Math.floor(u * n)` is a valid index of an `n`-element array |
| MockDataGenerators.RandomNumber | src/lib/mock-data-generators.ts:148-150 | `randomNumber(min, max)` lies in `[min, max]` whenever `min <= max` |
| MockDataGenerators.NextNumber | src/lib/mock-data-generators.ts:148-150 | it draws exactly one random value and lies in `[min, max]` whenever `min <= max` |
| MockDataGenerators.RandomElement | src/lib/mock-data-generators.ts:137-139 | `randomElement` returns an element of the array |
| MockDataGenerators.RandomElements | src/lib/mock-data-generators.ts:142-145 | `randomElements` returns `min(count, len)` elements drawn without repetition from the array, distinct when the array is |
| MockDataGenerators.SubMultisetDistinct | src/lib/mock-data-generators.ts:140-145 | a selection without repetition from distinct elements is itself distinct |
| MockDataGenerators.DateAt | src/lib/mock-data-generators.ts:153-159 | moving today back `d` days and setting the hour and minute stays within that calendar day |
| MockDataGenerators.RandomDate | src/lib/mock-data-generators.ts:153-159 | `randomDate(daysAgo)` falls between the start of the day `daysAgo` days back and the end of today |
| MockDataGenerators.NatToStringInjective | src/lib/mock-data-generators.ts:280 | distinct numbers print as distinct decimal strings, so the generated ids `article-${i}` differ |
| MockDataGenerators.ArticleIdInjective | src/lib/mock-data-generators.ts:280 | two article ids are equal only for the same loop index |
| MockDataGenerators.GenerateSlugShape | src/lib/mock-data-generators.ts:162-167 | a slug holds only `[a-z0-9-]`, has no doubled dash and neither starts nor ends with a dash |
| MockDataGenerators.SlugFixpoint | src/lib/mock-data-generators.ts:162-167 | a string already in slug form is its own slug |
| MockDataGenerators.GenerateSlugIdempotent | src/lib/mock-data-generators.ts:162-167 | normalising a slug again changes nothing |
| MockDataGenerators.LowerRunsIsReplaceRuns | src/lib/mock-data-generators.ts:163-164 | lowering and then collapsing runs of non-`[a-z0-9]` characters is the same as collapsing on the lowered text |
| MockDataGenerators.GenerateSection | src/lib/mock-data-generators.ts:177-190 | every section starts with its numbered `## セクション` heading |
| MockDataGenerators.PickSectionTitle | src/lib/mock-data-generators.ts:199-209 | the section title is one of the six titles built from the category |
| MockDataGenerators.PickParagraph | src/lib/mock-data-generators.ts:211-219 | the paragraph is one of the four paragraphs built from the category |
| MockDataGenerators.GenerateArticleContent | src/lib/mock-data-generators.ts:173-197 | the content starts with the title header and introduction and ends with the summary paragraph |
| MockDataGenerators.GenerateTitle | src/lib/mock-data-generators.ts:269-277 | the title is one of the ten templates with its placeholders filled, in order, by the category's name, a feature, a pattern, a problem, a project from the fixed lists and the year 2024 |
| MockDataGenerators.FillTitleCategorySlot | src/lib/mock-data-generators.ts:271-277 | a `{category}` placeholder in the middle of a template becomes the category's name at that place, and the rest of the template is kept |
| MockDataGenerators.FillTitleFeatureSlot | src/lib/mock-data-generators.ts:271-277 | in a template that starts with `{category}` and ends with `{feature}`, both are filled at their places and the text between them is kept |
| MockDataGenerators.FillSecondTemplate | src/lib/mock-data-generators.ts:83 | the template `{category}で実装する{feature}` gives the category's name, `で実装する`, and the feature |
| MockDataGenerators.FillFourthTemplate | src/lib/mock-data-generators.ts:85 | the template `初心者でもわかる{category}入門` gives `初心者でもわかる`, the category's name, and `入門` |
| MockDataGenerators.GenerateTags | src/lib/mock-data-generators.ts:287-297 | an article gets two to four distinct tags from the six-tag pool |
| MockDataGenerators.GenerateArticle | src/lib/mock-data-generators.ts:264-309 | article `i` has id `article-i`, slug `<slug>-i` and featured exactly when `i <= 3`; its counts lie in the generator's ranges, its update follows publication by at most seven days, and its author, category and tags come from the fixed pools |
| MockDataGenerators.GenerateMockArticles | src/lib/mock-data-generators.ts:261-315 | `generateMockArticles(count)` returns `max(count, 0)` articles, the generated rounds sorted newest first |
| MockDataGenerators.RoundOfArticle | src/lib/mock-data-generators.ts:264-314 | every returned article is the article of some round `1..count` |
| MockDataGenerators.RoundKept | src/lib/mock-data-generators.ts:309-314 | every round's article survives the sort |
| MockDataGenerators.GenerateMockComments | src/lib/mock-data-generators.ts:370-398 | comments belong to articles `1..articleCount` with well-formed ids and likes in `[0, 20]`; each article has at most ten; the list is sorted newest first |
| MockDataGenerators.RoundPercent | src/lib/mock-data-generators.ts:437 | `Math.round(count / total * 100)` lies in `[0, 100]` for a share of a positive total |
| MockDataGenerators.RoundedShareAtMost100 | src/lib/mock-data-generators.ts:437 | the rounded percentage of a share never exceeds 100 |
| MockDataGenerators.GenerateViewsByDate | src/lib/mock-data-generators.ts:406-419 | there are thirty consecutive days ending today, with views in `[1000, 5000]` and unique views in `[500, 2500]` |
| MockDataGenerators.ApplyPercentages | src/lib/mock-data-generators.ts:435-438 | each referrer keeps its source and count and gets its rounded share of the total; the total is unchanged |
| MockDataGenerators.GenerateReferrers | src/lib/mock-data-generators.ts:427-438 | there are five referrers in the fixed source order, with a positive total and percentages of that total |
| MockDataGenerators.GenerateMockAnalytics | src/lib/mock-data-generators.ts:404-448 | the totals are the sums over the thirty days and lie within their derived bounds; session duration, bounce rate and referrers lie within their ranges |
| MockDb.OrDefault | src/lib/mock-db.ts:77-78 | `x \|\| d` falls back to `d` for an absent or zero value |
| MockDb.ByCategory | src/lib/mock-db.ts:167-170 | the category filter keeps exactly the articles of that category slug, in order; an absent or empty category keeps all |
| MockDb.Matching | src/lib/mock-db.ts:64-74 | the filtered list holds exactly the articles matching both the category and the featured filter, in order |
| MockDb.ArticlesPage | src/lib/mock-db.ts:64-81 | `findArticles` returns matching articles in order, at most `limit` of them, the window `[offset, offset + limit)` of the matches |
| MockDb.FirstPageComplete | src/lib/mock-db.ts:76-79 | with offset 0 and no more matches than the limit, the page is every match |
| MockDb.GeneratedIdsUnique | src/lib/mock-db.ts:22 | generated articles carry pairwise distinct ids |
| MockDb.GenerateStoredArticles | src/lib/mock-db.ts:22 | the stored articles are fifty, newest first, with unique ids |
| MockDb.IncrementViewSpec | src/lib/mock-db.ts:174-179 | only the first article with the id gains one view; nothing else changes, and an unknown id changes nothing |
| MockDb.IncrementViewTotal | src/lib/mock-db.ts:174-179 | the total view count grows by one exactly when some article has the id |
| MockDb.IncrementViewIds | src/lib/mock-db.ts:174-179 | recording a view keeps article ids unique |
| MockDb.ToLowerIdempotent | src/lib/mock-db.ts:206 | lowering a lowered query changes nothing |
| MockDb.TallyOfSnoc | src/lib/mock-db.ts:186-190 | counting one more tag updates its entry in place, or appends a new entry with count 1 |
| MockDb.CountTags | src/lib/mock-db.ts:187-189 | the inner `forEach` leaves the tally of all tags seen so far, including this article's |
| MockDb.TallyOfIsTally | src/lib/mock-db.ts:184-190 | the tag map has one entry per distinct tag, whose count is that tag's number of occurrences |
| MockDb.PopularTags | src/lib/mock-db.ts:181-196 | popular tags are sorted by count; each names a real tag with its exact count, at most once; there are at most `limit` of them, and below the limit every tag appears |
| MockDb.PopularTagsDominate | src/lib/mock-db.ts:192-195 | a tag left out of the popular tags occurs no more often than any tag returned |
| MockDb.RelatedScore | src/lib/mock-db.ts:241-260 | the score is non-negative, and zero exactly when category, tags and author are all unshared |
| MockDb.RelatedCandidates | src/lib/mock-db.ts:239-262 | the candidates are exactly the other articles with a positive score, each with that score |
| MockDb.Related | src/lib/mock-db.ts:233-267 | an unknown id gives no results; otherwise the results are other articles with positive, non-increasing scores, at most `limit` of them, and no stored article appears more often than it is stored |
| MockDb.RelatedComplete | src/lib/mock-db.ts:262-264 | below the limit, every other article with a positive score is returned |
| MockDb.RelatedDominate | src/lib/mock-db.ts:262-264 | an article left out of the related list scores no higher than each one returned |
| MockDb.GetCategoryBySlug | src/lib/mock-db.ts:198-200 | the result is the category with that slug, and none exactly when no category has it |
| MockDb.MockDatabase.constructor | src/lib/mock-db.ts:19-29 | it stores fifty articles newest first and the generated comments and analytics; the store is consistent and the log is empty |
| MockDb.MockDatabase.LogRequest | src/lib/mock-db.ts:31-39 | it appends one entry with the method name, parameters and timestamp, and changes nothing else |
| MockDb.MockDatabase.GetRequestLog | src/lib/mock-db.ts:41-43 | it returns the log as recorded |
| MockDb.MockDatabase.ClearRequestLog | src/lib/mock-db.ts:45-47 | it empties the log and changes nothing else |
| MockDb.MockDatabase.FindArticles | src/lib/mock-db.ts:50-82 | it logs the call with its options as passed, `delay` included, or `{}` when none are given, and returns the page of matching articles |
| MockDb.MockDatabase.FindArticleBySlug | src/lib/mock-db.ts:84-93 | it returns the first article with that slug, and null exactly when none has it |
| MockDb.MockDatabase.FindTrendingArticles | src/lib/mock-db.ts:95-100 | it returns `limit` (default 5) stored articles sorted by views, and every article left out has no more views than any returned |
| MockDb.MockDatabase.FindCommentsByArticle | src/lib/mock-db.ts:103-112 | it returns exactly the comments on that article, in stored order |
| MockDb.MockDatabase.GetRecentComments | src/lib/mock-db.ts:114-118 | it returns `limit` (default 10) stored comments, newest first, and every comment left out is no newer than any returned |
| MockDb.MockDatabase.GetAnalytics | src/lib/mock-db.ts:121-127 | it returns thirty days of views whose totals match the reported totals |
| MockDb.MockDatabase.GetTopArticles | src/lib/mock-db.ts:129-139 | it returns the `limit` (default 10) most-viewed stored articles, each with `views` equal to its view count, in non-increasing order; no stored article appears more often than it is stored, and every article left out has no more views than any returned |
| MockDb.MockDatabase.GetCategories | src/lib/mock-db.ts:142-146 | it logs the call and returns the five fixed categories |
| MockDb.MockDatabase.GetCategoryStats | src/lib/mock-db.ts:148-163 | it logs the call and returns one entry per category, in category order, whose count is that category's number of articles |
| MockDb.MockDatabase.GetTotalArticleCount | src/lib/mock-db.ts:165-172 | it logs the call and returns the number of articles in the category, or all of them without a category |
| MockDb.MockDatabase.IncrementViewCount | src/lib/mock-db.ts:174-179 | it adds one view to the first article with the id, keeps the store consistent and leaves the log alone |
| MockDb.MockDatabase.GetPopularTags | src/lib/mock-db.ts:181-196 | the nested `forEach` tally, sorted and cut to the limit, is `PopularTags` of the stored articles |
| MockDb.MockDatabase.SearchArticles | src/lib/mock-db.ts:202-220 | it returns, in order, exactly the articles whose lowered title, excerpt, content or a tag contains the lowered query and that match the category |
| MockDb.MockDatabase.FindRelatedArticles | src/lib/mock-db.ts:222-268 | it logs `{ articleId, limit }` with the default limit 4 and returns the related ranking |
| MockDb.SearchEmptyQuery | src/lib/mock-db.ts:202-220 | an empty query without a category returns every article |
| MockDb.SearchIgnoresQueryCase | src/lib/mock-db.ts:206 | a query and its lowered form find the same articles |
| Pagination.GetPageNumbers | src/components/ui/Pagination/index.tsx:18-58 | the window adjustment and the pushes produce exactly the entries of `PageNumbers` |
| Pagination.PushEntries | src/components/ui/Pagination/index.tsx:36-57 | for a settled window, the pushes give page 1 and an ellipsis when the window does not reach them, every page of the window in order, then an ellipsis and the last page when it does not reach them |
| Pagination.RenderPagination | src/components/ui/Pagination/index.tsx:13-15 | nothing is rendered for at most one page; otherwise the entries are shown, and previous and next lead one page back and on, disabled on the first and last page |
| Pagination.WindowIsClampedRun | src/components/ui/Pagination/index.tsx:24-34 | for a current page in range, the window is the run of `min(5, total)` pages starting two before it, pushed back inside `1..total` |
| Pagination.WindowFacts | src/components/ui/Pagination/index.tsx:24-34 | the window lies in `1..total`, holds the current page and the two either side that exist, and has `min(5, total)` pages |
| Pagination.PageNumbersEnds | src/components/ui/Pagination/index.tsx:37-55 | the entries start with page 1 and end with the last page |
| Pagination.PageNumbersIncreasing | src/components/ui/Pagination/index.tsx:37-55 | page numbers strictly increase along the entries and lie in `1..total` |
| Pagination.PageNumbersNeighbours | src/components/ui/Pagination/index.tsx:24-47 | the current page and every page within two of it is shown |
| Pagination.PageNumbersEllipses | src/components/ui/Pagination/index.tsx:37-55 | an ellipsis is second exactly when the window starts after page 2, second to last exactly when it ends before the page before last, and nowhere else |
| Pagination.TenOfTwenty | src/components/ui/Pagination/index.tsx:18-58 | page 10 of 20 shows 1, …, 8–12, …, 20 |
| Pagination.FirstOfTen | src/components/ui/Pagination/index.tsx:28-30 | page 1 of 10 widens to pages 1–5, then …, 10 |
| ExpenseSchema.CategoryCodes | src/app/expense/schema.ts:4-7 | a category is accepted exactly when it is a string of 1 to 20 characters; an absent one is required |
| ExpenseSchema.AmountCodes | src/app/expense/schema.ts:8-15 | an amount is accepted exactly when it is an integer number in `[1, 1000000]`; each broken bound is reported |
| ExpenseSchema.UsageDateCodes | src/app/expense/schema.ts:16-26 | a usage date is accepted exactly when it is a valid date between 365 days ago and now; at most one issue is reported |
| ExpenseSchema.HasReceipt | src/app/expense/schema.ts:27 | an absent receipt flag defaults to false, and any other value is coerced to its truthiness |
| ExpenseSchema.ItemIssues | src/app/expense/schema.ts:3-28 | an item has no issues exactly when every rule holds; each issue names that item and one of its fields |
| ExpenseSchema.ParseItem | src/app/expense/schema.ts:3-28 | parsing succeeds exactly for a valid item and returns its category, amount, date and receipt flag; otherwise it returns a non-empty list of issues |
| ExpenseSchema.ItemsIssues | src/app/expense/schema.ts:31-32 | there are no item issues exactly when every item is valid; each issue points at an invalid item by position |
| ExpenseSchema.ParseForm | src/app/expense/schema.ts:30-35 | a form parses exactly when it has 1 to 10 items, all valid; the result parses each item in order, and a failure carries every issue |
| ExpenseSchema.FormReportsItemIssues | src/app/expense/schema.ts:31-32 | every issue of an item appears among the form's issues at that item's position |
| ExpenseSchema.ItemCountIssues | src/app/expense/schema.ts:33-34 | an empty list is too short and more than ten items too long, whatever the items hold |

## Left out

- The wait that `delay` causes (`setTimeout`), `async`/`await` and `console.log` are not modelled. The `delay` value itself is kept in the options and is recorded in the request log.
- `Date.now()` and `new Date()` are a `now` parameter in milliseconds. Local time is taken to equal UTC, so there are no daylight-saving shifts in `setDate`/`setHours`.
- ISO date strings in analytics are modelled as day numbers.
- The shuffle in `randomElements` sorts with a random comparator. It is modelled as some selection without repetition chosen by the draws; its bias is not modelled.
- MockDataGenerators.RandomElements: takes exactly one draw per array element. The source's comparator takes one draw per comparison, and that number depends on the engine's sort algorithm. So for a given stream of random values, every later value is drawn at a different position than in the source. No contract depends on the positions, since every contract holds for every stream.
- Articles are values. `incrementViewCount` mutates an article object that earlier query results may share with the store, and that aliasing is not modelled. Queries return the stored values.
- `getAnalytics` returns a shallow copy, and `getRequestLog` a copy of the array; both are returned as values.
- `toLowerCase` is modelled for ASCII letters only. The site's Japanese text has no case, so nothing is lost there.
- String lengths count characters, not UTF-16 code units.
- Floating point is not modelled:
  - amounts are exact reals;
  - `Math.round` of a percentage is computed exactly on integers;
  - infinite amounts are not modelled.
- The Japanese texts of the generated content and of the validation messages are kept out of the contracts. `ExpenseSchema` reports an issue code in place of each message.
- The caching wrappers around the database in the data-fetching layer, the pages, and the presentational components are not part of this model. That includes the styling of the current page button.
- The schema library's form-data coercion (strings to numbers and dates) and the server action's redirect are not part of this model. `ExpenseSchema` starts from already-typed values.
- A form whose `items` is present but not an array is not modelled.
- MockDb.MockDatabase.constructor: states how many articles there are, their order and the store invariant. It does not repeat each article's generator facts, which `GenerateMockArticles` states, nor the analytics value ranges, which `GenerateMockAnalytics` states.
- MockDb.MockDatabase.GetAnalytics: requires the store invariant, which every constructor and method keeps, to state the totals.
- MockDb.ArticlesPage: states the page as a window of the matches only for non-negative `offset` and `limit`. For negative ones it states only the bound on the length.
