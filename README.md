# Img_Upload photo library: collection engine model

This project models, in Dafny, the server core of the Img_Upload photo-library
tool:

- **Projects** (`Catalog`): create, rename and delete, with the name rules of
  the project routes.
- **Photo store and dedup** (`Catalog`): the dedup-and-insert step every scraper
  shares. A candidate url is dropped if the run's `seen` set already has it,
  then added to `seen`, and stored only when the project has no photo with
  that url.
- **Photo listing** (`PhotoQuery`): the multi-valued filter, the mapping from
  usage tokens to `usageCount` conditions, newest-first order, `skip`/`limit`
  pagination and `hasMore`.
- **"Use N photos"** (`Usage`): pick the least-used photos of a project and
  bump their `usageCount`.
- **Pixabay migration** (`Migration`): the selection query, derivation of the
  permanent url (from `pixabayId` or the `[-_](\d{6,})[-_.]` digit run),
  batches of 100 with `migrated`/`failed` counters, the status counts, and
  idempotence.
- **Scrapers** (`Scrapers`, `Crawl`, `ScrapeHandler`): the search-url builder,
  the Pexels, Unsplash and Pixabay scrapers, single-page scraping, the
  whole-site crawl, and the `/photos/scrape` handler.
- **Massive collector** (`Taxonomy`, `TextAmounts`, `Collector`): the
  language/category taxonomy, the keyword fallback chain, the text-amount
  buckets, the bounded keyword × source loop per bucket, the per-locale
  progress counters, the two-phase locale order and the final report.

How the system is represented:

- The MongoDB store is the class `Catalog.Store` with `photos` and `projects`
  sequences. A photo's `_id` is its position in `photos`, because the
  modelled core never deletes photos.
- A network call is an input. `Apis` gives, per search, the hits an API
  returned, or `None` when the request failed. A website is a `Web`: a finite
  map from url to page (its `href`s and image sources) plus an opaque
  relative-url resolver.
- The collector is `Collector.MassiveImageCollector`. Its `progress` map and
  `seen` set are fields that its methods update in place. The `LANGUAGES`
  table and the keyword table are constants bound in the constructor.
- Each method is proved equal to a specification function, for example
  `Insertion`, `CollectFrom`, `CrawlOrder` or `MigrateAll`. The lemmas
  beside those functions state what the source promises.

Where the code and its own description disagree, the model follows the code:

- `getKeywords` (server/massiveCollection.js:243-252) looks up the base
  language before the full locale code, although its comment says "exact match
  first". `Taxonomy.LookupOrder` states the order the code uses, and
  `Taxonomy.FullCodeTierNeverDecides` shows that, since no key of the keyword
  tables contains `_`, the full-code tier never decides.
- `crawlEntireSite` takes urls from the end of its `toVisit` list (`pop`), so
  the crawl is depth-first, not breadth-first. `Crawl.CrawlOrder` is that
  last-in-first-out order.
- The Pexels scraper in server/server.js (lines 867-913) has no check for an
  empty url, unlike the Pixabay and Unsplash scrapers. A hit without
  `src.original` reaches `Photo.create` with no url, which the `url: required`
  schema rejects. The call then returns 0, and rows created earlier in that
  call stay stored. `Scrapers.PexelsWithoutAbort` and `Scrapers.PexelsExtends`
  state this behaviour.

## Model

| member | source | states |
|---|---|---|
| Wrappers.Code | server/server.js:56-115 | the answered error status is a 4xx or 5xx code, and is 500 or more exactly for a server error |
| Strings.ContainsIffOccurs | server/server.js:518-527 | a url contains a fragment (the `$regex` substring tests) exactly when the fragment occurs at some position |
| Strings.BeforeFirst | server/massiveCollection.js:245 | `code.split('_')[0]` is a prefix of the code with no separator, followed by the separator whenever it is shorter than the code |
| Strings.TrimProperties | server/server.js:78-83 | the trimmed name is empty exactly when the name is all whitespace; it has no whitespace at either end; trimming twice equals trimming once |
| Strings.NatToString | server/server.js:547 | the decimal rendering of a number consists of digits only and is non-empty |
| Catalog.Renamed | server/server.js:88-92 | the rename update keeps the project count and changes only the entry with the given id |
| Catalog.Without | server/server.js:106-108 | after a delete, a project is present exactly when it was present and has a different id |
| Catalog.RenameKeepsNamesUnique | server/server.js:83-92 | a rename that passed the conflict check keeps project names pairwise distinct |
| Catalog.DeleteKeepsUnique | server/server.js:106-110 | deleting a project keeps names and ids pairwise distinct |
| Catalog.Step | server/server.js:818-825 | one candidate: a url already in `seen` changes nothing; otherwise it joins `seen`, and a row is appended and `added` goes up by 1 exactly when the project had no photo with that url |
| Catalog.InsertionSound | server/server.js:812-828 | a dedup pass keeps earlier photos as a prefix; `added` equals the rows created and is at most the number of candidates; every created row is a candidate of the project; the project's urls stay distinct; every url in `seen` is stored |
| Catalog.InsertionCreatesCandidates | server/server.js:818-826 | a dedup pass keeps the old rows and every row it creates is one of its candidates |
| Catalog.InsertionCovers | server/server.js:818-826 | after a dedup pass every candidate url not skipped as empty is in `seen` and stored for the project |
| Catalog.InsertionKeepsSeenStored | server/server.js:818-826 | if every url in `seen` is stored before a pass, the same holds after it |
| Catalog.InsertionOfStoredAddsNothing | server/server.js:821-825 | feeding candidates whose urls are all stored already creates no row and returns 0 (dedup idempotence) |
| Catalog.InsertionExtends | server/server.js:812-828 | a dedup pass only appends rows of the project, keeps its urls distinct, grows `seen`, and raises `added` by exactly the rows created |
| Catalog.Store.CreateProject | server/server.js:56-71 | 400 exactly when the name is missing or empty; 409 exactly when a project has that exact name; otherwise the untrimmed name is appended under a fresh id and returned |
| Catalog.Store.RenameProject | server/server.js:75-103 | 400 exactly when the trimmed name is empty; 409 exactly when another id holds the trimmed name; 404 exactly when the id is unknown; otherwise only that project's name becomes the trimmed name |
| Catalog.Store.DeleteProject | server/server.js:106-115 | 404 exactly when the id is unknown; otherwise exactly that project is removed and photos are untouched |
| Catalog.Store.InsertNew | server/server.js:812-826 | the store and `seen` after the loop are exactly the dedup pass `Insertion` over the candidates |
| Taxonomy.Targets | server/massiveCollection.js:221-223 | 39 languages and 12 categories give 3846 images per language and 320 per category |
| Taxonomy.BaseLanguage | server/massiveCollection.js:245 | the base language is the code up to its first `_`, or the whole code when it has none |
| Taxonomy.LookupOrder | server/massiveCollection.js:243-252 | keywords come from the base language if it has an entry, else the full code, else `en`, else the empty list |
| Taxonomy.FullCodeTierNeverDecides | server/massiveCollection.js:248-251 | when no key of a table contains `_`, as in every category table, the full-code tier never decides: the result is the base language's list, else `en`, else the empty list |
| Taxonomy.CategoryShape | server/massiveCollection.js:46-215 | every category's keyword table has an `en` entry, no empty list and no key containing `_` |
| Taxonomy.ShapedLookup | server/massiveCollection.js:248-251 | for such a table the lookup is never empty: the base language's list if present, else the `en` list |
| Taxonomy.EveryBucketHasKeywords | server/massiveCollection.js:243-252 | every language × category bucket gets a non-empty keyword list |
| Taxonomy.FilterMembers | server/massiveCollection.js:607-609 | a locale is in the filtered list exactly when it is in the input and passes the test |
| Taxonomy.FilterSplits | server/massiveCollection.js:606-630 | the high-priority filter and its complement together are a permutation of all locales |
| Taxonomy.PhaseOrdering | server/massiveCollection.js:606-647 | phase 1 holds exactly the locales with a shortlisted pixabay code; phase 2 holds the rest in table order; together they are a permutation of `LANGUAGES` |
| TextAmounts.SplitWords | server/massiveCollection.js:583 | `split(/\s+/)` yields at least one piece and no piece contains whitespace |
| TextAmounts.SplitKeepsText | server/massiveCollection.js:583 | joining the pieces gives back exactly the non-whitespace characters of the description |
| TextAmounts.SplitCountsRuns | server/massiveCollection.js:583 | the number of pieces is the number of whitespace runs plus 1 |
| TextAmounts.TextAmountByRuns | server/massiveCollection.js:581-587 | `none` exactly for the empty description; otherwise `minimal` below 3 pieces, `moderate` from 3 to 7, `substantial` from 8 |
| TextAmounts.MoreTextNeverLess | server/massiveCollection.js:581-587 | appending text never lowers the bucket |
| Usage.EffectiveLimit | server/server.js:752-757 | a `limit` of 0 takes every photo, a negative one its absolute value; the result never exceeds the available photos |
| Usage.ProjectIndices | server/server.js:755 | lists exactly the positions of the project's photos, each once |
| Usage.SortByUsage | server/server.js:756 | the order by `usageCount` is a permutation of its input |
| Usage.SortAscending | server/server.js:756 | the order by `usageCount` is non-decreasing |
| Usage.Lowest | server/server.js:755-757 | the selection has min(k, candidates) distinct entries, all of them candidates |
| Usage.LowestTakesLeastUsed | server/server.js:755-757 | every selected photo's `usageCount` is at most every unselected photo's |
| Usage.UsedAddsOnePerPhoto | server/server.js:765-768 | the update raises total usage by exactly the number of selected photos |
| Usage.Selection | server/server.js:752-757 | the selection holds only the project's photos, each once, and is empty exactly when the project has no photos |
| Usage.UsePhotos | server/server.js:749-778 | 404 exactly when nothing is selected; otherwise each selected photo gains 1, every other photo is unchanged, and the selected photos are returned with their new counts |
| PhotoQuery.Values | server/server.js:137-152 | a filter parameter constrains nothing exactly when it is absent, `""` or an empty list |
| PhotoQuery.UsageConditionsEmpty | server/server.js:155-182 | no `$or` is produced exactly when no token is one of `0`..`3` or `4+` |
| PhotoQuery.UsageConditionsSatisfied | server/server.js:155-182 | a count satisfies some condition exactly when a token `0`..`3` equals it or `4+` is given and it is at least 4 |
| PhotoQuery.UsageFilterMeaning | server/server.js:155-182 | a photo passes the usage filter exactly when no known token is given or its count satisfies a given token |
| PhotoQuery.EmptyQuerySelectsProject | server/server.js:131-182 | with no filter parameters, every photo of the project matches and no other |
| PhotoQuery.MatchingNewestFirst | server/server.js:193-194 | the matching photos are listed newest first |
| PhotoQuery.ListPhotos | server/server.js:118-227 | the only error is 500, answered exactly when the skip `(page-1)·limit` is negative: page below 1 with a positive limit, or above 1 with a negative limit (absent page and limit are 1 and 100) |
| PhotoQuery.ListingIsPage | server/server.js:131-220 | with a positive limit, entry k of a page is matching entry (page-1)·limit + k, and the page holds all of the next `limit` matches that exist (none past the end); `hasMore` exactly when there are at least page·limit matches |
| PhotoQuery.NegativeLimitListsAbs | server/server.js:131-220 | with a negative limit and page at most 1, the page is the next -limit matches from the skip on (fewer at the end), and `hasMore` is false |
| PhotoQuery.ZeroLimitListsAll | server/server.js:193-196 | a limit of 0 lists every match from the skip on |
| PhotoQuery.MatchingIds | server/server.js:230-308 | the id listing returns the ids of exactly the photos the same filter selects |
| Migration.FindMatch | server/server.js:551 | the match found is the leftmost position with a `-`/`_`, a maximal run of at least 6 digits and a `-`/`_`/`.` after it; none exactly when no position qualifies |
| Migration.ExtractIdMatches | server/server.js:551-552 | the extracted id is the digit run of that leftmost match |
| Migration.PermanentForIsPage | server/server.js:544-558 | a derived url is always `https://pixabay.com/photos/photo-<digits>/`; none is derived (the photo fails) exactly when `pixabayId` is absent or 0 and the url matches nowhere |
| Migration.PermanentUrlIsFinal | server/server.js:523-553 | a permanent url no longer satisfies the migration query |
| Migration.SelectedIdsMeaning | server/server.js:518-527 | the selected ids are increasing and are exactly the photos of the project from pixabay whose url contains `cdn.pixabay.com` or `pixabay.com/get` or lacks `pixabay.com/photos/` |
| Migration.BulkWriteSetsOnly | server/server.js:560-588 | each queued update sets exactly `url`, `oldTempUrl` (the previous url) and `migratedAt`, and nothing else |
| Migration.QueueMeaning | server/server.js:560-577 | a photo is queued exactly when it has a permanent url, and its update holds that url and its old url |
| Migration.QueueUpdates | server/server.js:540-582 | the batch loop queues exactly `Queue`; `migrated` counts the photos with a permanent url and `migrated + failed` is the batch size |
| Migration.MigrateBatch | server/server.js:537-588 | one slice of at most 100 ids is written; counters grow by that slice's counts |
| Migration.BatchStep | server/server.js:536-589 | writing slice [i, end) after slices [0, i) equals migrating [0, end) |
| Migration.MigrateBatches | server/server.js:536-589 | the slices together migrate every selected photo; `migrated + failed` is the number selected |
| Migration.MigratePixabay | server/server.js:512-598 | the store becomes `MigrateAll`; `total` is the number selected, `migrated` those with a permanent url, `failed` the rest |
| Migration.StatusAfterMigration | server/server.js:607-640 | after migration `needsMigration` drops to the failed photos, `totalPixabay` is unchanged, and `permanent` grows by the migrated count |
| Migration.PermanentNonNegative | server/server.js:639 | `permanent = totalPixabay - needsMigration` is never negative |
| Migration.MigrationIdempotent | server/server.js:512-598 | running the migration again changes nothing |
| Migration.SecondPassMigratesNothing | server/server.js:512-598 | a second run selects again exactly the photos the first run failed on, none of which has a permanent url, so it answers `migrated = 0` |
| Crawl.RawSrcRule | server/server.js:813-814 | an element offers no url exactly when it has no `src` and its `srcset` is absent, empty or starts with a space; a url taken from `srcset` is its first space-free word |
| Crawl.PageRowsMeaning | server/server.js:811-816 | the page's candidates are exactly its elements that offer a url, resolved against the page |
| Crawl.ScrapeSinglePage | server/server.js:800-833 | the store, `seen` and the answer are the dedup pass (with no empty-url skip) over the page's candidates, none when the page does not load |
| Crawl.NewLinksMeaning | server/server.js:850-858 | a link is pushed exactly when it is not `mailto:`/`tel:`, its absolute form starts with the base url, and it is not visited |
| Crawl.PushLinks | server/server.js:850-858 | the stack grows by exactly the pushed links, in document order |
| Crawl.VisitShrinks | server/server.js:840-843 | visiting a new url shrinks the set of reachable unvisited urls, so the crawl terminates |
| Crawl.NextBounded | server/server.js:840-858 | popping and pushing keeps every stacked url inside the finite set of reachable urls |
| Crawl.VisitPage | server/server.js:845-861 | one visit scrapes the page and pushes its new links |
| Crawl.CrawlEntireSite | server/server.js:835-865 | the store is the dedup pass over the pages of `CrawlOrder`, in that order, and `totalAdded` counts the rows created |
| Crawl.LinkedStartsWithBase | server/server.js:855 | every visited url starts with the base url |
| Crawl.CrawlOrderMeaning | server/server.js:835-865 | the base url is fetched first; no url is fetched twice; every link on a fetched page to the site is fetched; each fetched url after the first was linked from an earlier one |
| Scrapers.SearchUrls | server/server.js:781-797 | a search url exists exactly for the five known sites, and it contains the keyword |
| Scrapers.SiteLocalesMeaning | server/server.js:667-686 | the locales used are the requested `pexels:`/`pixabay:` entries with the tag removed; `['']` when no list is given or none carries the tag |
| Scrapers.PixabayLangParam | server/server.js:992-994 | the `lang` parameter is sent exactly when the language is neither empty nor `ignore`, and then it is that language |
| Scrapers.PexelsWithoutAbort | server/server.js:881-906 | with no empty url among the hits, the Pexels call is the dedup pass over its hits |
| Scrapers.PexelsExtends | server/server.js:867-913 | a Pexels call only appends rows and grows `seen`, even when it fails midway |
| Scrapers.UnsplashExtends | server/server.js:915-978 | an Unsplash call only appends rows and grows `seen` |
| Scrapers.PixabayExtends | server/server.js:980-1039 | a Pixabay call only appends rows and grows `seen` |
| Scrapers.SkipEmptyCreatesNoEmptyUrl | server/server.js:934-1006 | with the empty-url skip, no created row has an empty url |
| Scrapers.ScrapeFromPexels | server/server.js:867-913 | the store, `seen` and the answer are those of `PexelsCall` over the hits |
| Scrapers.ScrapeFromUnsplash | server/server.js:915-978 | the store, `seen` and the answer are those of `UnsplashCall` over the hits |
| Scrapers.ScrapeFromPixabay | server/server.js:980-1039 | the store, `seen` and the answer are those of `PixabayCall` over the hits |
| ScrapeHandler.UnknownSiteAddsNothing | server/server.js:702-707 | a site name outside the known ones adds nothing |
| ScrapeHandler.CrawlAllExtends | server/server.js:715-724 | crawling the listed urls only appends rows |
| ScrapeHandler.ScrapeMeaning | server/server.js:650-728 | 400 exactly for an invalid mode or missing lists, with nothing stored; otherwise only appends, keeps the project's urls distinct, answers at most the rows created, and a crawl answers exactly the rows created |
| ScrapeHandler.ScrapeSite | server/server.js:664-707 | one keyword on one site equals the specification `SiteCall` |
| ScrapeHandler.ScrapeKeyword | server/server.js:663-709 | one keyword over all sites equals `SitesCall` |
| ScrapeHandler.CrawlUrls | server/server.js:715-725 | the custom-website mode equals `CrawlAll` over the urls with a fresh `seen` |
| ScrapeHandler.HandleScrape | server/server.js:650-728 | the answer and the store are those of `Scrape` |
| Collector.PixabayPhotos | server/massiveCollection.js:345-367 | one row per Pixabay hit, each of the project, unused, tagged with the bucket's locale and category, with a description |
| Collector.PexelsPhotos | server/massiveCollection.js:409-430 | one row per Pexels hit, each of the project, unused, tagged with the bucket's locale and category, with a description |
| Collector.UnsplashPhotos | server/massiveCollection.js:471-491 | one row per Unsplash hit, each of the project, unused, tagged with the bucket's locale and category, with a description |
| Collector.SkipRule | server/massiveCollection.js:263-277 | of the four sources, pixabay is skipped exactly when the locale has no pixabay code, pexels exactly when it has no pexels code; unsplash and wikimedia never are |
| Collector.SourcesBeforeWikimedia | server/massiveCollection.js:270-272 | below 3n, `floor(i/n) mod 4` is below 3, so wikimedia is never chosen |
| Collector.UnsupportedSpanSkipped | server/massiveCollection.js:274-277 | a skipped source's whole span of n indices fetches and stores nothing |
| Collector.CollectFromBounds | server/massiveCollection.js:270-313 | the bucket loop ends within 3n iterations, and ends before that only with the target reached |
| Collector.CollectFromGrows | server/massiveCollection.js:297-313 | a bucket only appends rows of that bucket, each with a url, and the collected count equals the rows created |
| Collector.CollectLocalesGrows | server/massiveCollection.js:600-653 | a whole run only appends rows of the collected locales, keeps urls distinct, and its count equals the rows created |
| Collector.ZeroProgress | server/massiveCollection.js:233-238 | a fresh locale counter has total 0 and every category at 0, consistently |
| Collector.BumpKeepsConsistent | server/massiveCollection.js:589-593 | adding to one category keeps the total equal to the sum of the categories |
| Collector.ResetAllMeaning | server/massiveCollection.js:231-240 | initialising sets every listed locale to the zero counter and leaves other entries as they were |
| Collector.TotalsAgree | server/massiveCollection.js:665-675 | the sum of locale totals equals the sum of the category columns |
| Collector.SummaryAddsUp | server/massiveCollection.js:655-678 | `totalImages` equals the category-distribution sum and the counters' total; language keys are the tracked codes; `sourceDistribution` is empty |
| Collector.MassiveImageCollector.constructor | server/massiveCollection.js:219-229 | targets 150000 / 3846 / 320, every language tracked at zero, `seen` empty |
| Collector.MassiveImageCollector.InitializeProgress | server/massiveCollection.js:231-240 | resets every language's counters to zero |
| Collector.MassiveImageCollector.UpdateProgress | server/massiveCollection.js:589-593 | only that locale's category and total grow by `added`; the grand total grows by `added` |
| Collector.MassiveImageCollector.ScrapeFromPixabay | server/massiveCollection.js:317-377 | the store, `seen` and the answer are the collector's Pixabay search: the dedup pass over its rows, nothing on a failed request; counters untouched |
| Collector.MassiveImageCollector.ScrapeFromPexels | server/massiveCollection.js:380-440 | the store, `seen` and the answer are the collector's Pexels search; counters untouched |
| Collector.MassiveImageCollector.ScrapeFromUnsplash | server/massiveCollection.js:443-501 | the store, `seen` and the answer are the collector's Unsplash search; counters untouched |
| Collector.MassiveImageCollector.Search | server/massiveCollection.js:282-295 | one attempt dispatches to the chosen source and equals `Attempt` |
| Collector.MassiveImageCollector.CollectTurn | server/massiveCollection.js:271-309 | one loop iteration advances `CollectFrom` by one index, and the bucket counter equals what has been collected so far |
| Collector.MassiveImageCollector.CollectForLanguageAndCategory | server/massiveCollection.js:255-314 | the store, `seen` and the return equal `CollectFrom` from index 0; the counters grow by the collected count |
| Collector.MassiveImageCollector.CollectCategories | server/massiveCollection.js:616-646 | all 12 categories of a locale are collected in order, and the grand total grows by what was created |
| Collector.MassiveImageCollector.CollectPhase | server/massiveCollection.js:613-647 | each locale of a phase is collected in order, and the grand total grows by what was created |
| Collector.MassiveImageCollector.StartCollection | server/massiveCollection.js:600-653 | the run equals `CollectLocales` over phase 1 then phase 2; `totalImages` is the old total plus the rows created; the report is `Summary` of the counters |
| Collector.MassiveImageCollector.GenerateReport | server/massiveCollection.js:655-678 | the report is `Summary` of the counters |

## Left out

- Express routing, CORS, JSON shaping and logging: only each handler's decision logic and answer status are modelled.
- MongoDB failures: the only 500 answer modelled is the listing's invalid `skip`; other database errors are not modelled.
- HTTP fetching and HTML parsing (axios, cheerio, puppeteer), `new URL(...)` and `encodeURIComponent`: replaced by the `Apis` and `Web` inputs and an opaque resolver; `Scrapers.BuildSearchUrl` takes the keyword already encoded.
- The `/\s+/g → '+'` rewrite of the Pixabay query and the API keys: an API without a key is modelled as a failed request (`None` hits).
- `localizeKeywordForUnsplash` (server/massiveCollection.js:556-579): it picks a term with `Math.random`; the model passes the bare keyword.
- `delay`, ETA, rate, percentages and timestamps: clock and floating point; `migratedAt` is a `now` parameter, and `completedAt` is not modelled.
- The Wikimedia scrapers (server/massiveCollection.js:504-548, server/server.js:1088-1153): they race with `.each(async …)` callbacks; in the collector they are unreachable, and in the scrape handler the model treats them as adding nothing. This hides two effects: each callback adds its url to the request's shared `seen` set before its first `await`, during the call, so a later site of the same request skips that url; and the rows are created later, typically after the answer has been sent, so they can be in the store but not in `added`. ScrapeHandler.SiteCall drops both, not only the count.
- The Freepik scraper (server/server.js:1041-1086): a headless browser; the scrape handler treats it as adding nothing.
- CSV import (server/server.js:311-353): streaming callbacks finish after the response is sent.
- The massive-collection and progress routes (server/server.js:1842-1922): a fire-and-forget background run around `startCollection`.
- Photo delete, export and distribution handlers, and the React files: outside the modelled core.
- Extra metadata fields (width, height, photographer, tags and similar) are not stored in the modelled photo.
- Collector.MassiveImageCollector.ScrapeFromPexels: a hit without `src` (a TypeError in the source) is not modelled; hits always carry `src.original`, possibly empty.
- Collector.MassiveImageCollector.CollectTurn: the `try/catch` around each attempt never fires, because every scraper catches its own errors, so the model has no catch branch.
- Migration.MigratePixabay: the backfilled `pixabayId` is set only on the in-memory document and never written, so the model does not store it either.
- Collector.MassiveImageCollector.UpdateProgress: requires the locale code to be tracked; the source throws on an unknown code, and every caller passes a tracked one.
- PhotoQuery.ListPhotos: its own contract states only the error case; the page contents, length and `hasMore` are stated by PhotoQuery.ListingIsPage (positive limit), PhotoQuery.NegativeLimitListsAbs (negative limit) and PhotoQuery.ZeroLimitListsAll (zero limit).
- Usage.SortByUsage: equal `usageCount`s are ordered by store position; MongoDB leaves that order open, so which of several equally used photos Usage.UsePhotos picks is the model's choice, and only Usage.LowestTakesLeastUsed and Usage.UsedAddsOnePerPhoto hold of the source for every tie order.
- PhotoQuery.MatchingIds: lists the ids in store order; `find` without a sort promises no order, so only the set of ids listed is the source's promise (likewise the order of the photos Usage.UsePhotos returns).
- ScrapeHandler.HandleScrape: a truthy `languages` value that is not an array (a string, say) is not modelled; the handler then throws in `languages.filter` at the first Pexels or Pixabay site and sends no answer, keeping the rows stored so far, whereas the model only has absent/falsy (`None`) or an array.
