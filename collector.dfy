/** The `MassiveImageCollector`: for every (locale, category) bucket it walks
    the category's keywords through the stock photo APIs until the bucket's
    target is met, counting what it adds per locale and per category, and it
    reports the totals at the end. The API answers are inputs, as in
    `Scrapers`; the store is the shared `Catalog.Store`. */
module Collector {
  import opened Wrappers
  import opened Catalog
  import opened Taxonomy
  import opened TextAmounts
  import opened Scrapers

  // ---------------------------------------------------------------------
  // The rows the collector creates

  /** A row created for `projectId` while collecting the bucket (`code`,
      `category`): unused, and tagged with the bucket's locale and category. */
  predicate InBucket(p: Photo, projectId: nat, code: string, category: Category) {
    p.projectId == projectId && p.usageCount == 0 &&
    p.locale == Some(code) && p.imageType == Some(Key(category))
  }

  /** The row the collector's `scrapeFromPixabay` creates for a hit. */
  function PixabayPhoto(projectId: nat, keyword: string, langCode: string, code: string, category: Category, hit: PixabayHit): Photo {
    Photo(projectId, Or(hit.largeImageURL, hit.webformatURL), 0, OrNull(langCode), Some(code),
          Some(Or(hit.tags, keyword)), Some(Label(EstimateTextAmount(hit.tags))), Some(Key(category)),
          Metadata(Some("pixabay"), hit.id, None, None))
  }

  /** The row the collector's `scrapeFromPexels` creates for a hit. */
  function PexelsPhoto(projectId: nat, keyword: string, langCode: string, code: string, category: Category, hit: PexelsHit): Photo {
    Photo(projectId, hit.original, 0, OrNull(langCode), Some(code),
          Some(Or(hit.alt, keyword)), Some(Label(EstimateTextAmount(hit.alt))), Some(Key(category)),
          Source("pexels"))
  }

  /** The row the collector's `scrapeFromUnsplash` creates for a hit. */
  function UnsplashPhoto(projectId: nat, keyword: string, code: string, category: Category, hit: UnsplashHit): Photo {
    Photo(projectId, Or(hit.full, hit.regular), 0, None, Some(code),
          Some(Or(hit.altDescription, Or(hit.description, keyword))),
          Some(Label(EstimateTextAmount(hit.altDescription))), Some(Key(category)),
          Source("unsplash"))
  }

  function PixabayPhotos(projectId: nat, keyword: string, langCode: string, code: string, category: Category, hits: seq<PixabayHit>): (rows: seq<Photo>)
    ensures |rows| == |hits| && OfProject(rows, projectId)
    ensures forall i :: 0 <= i < |rows| ==> InBucket(rows[i], projectId, code, category) && rows[i].description.Some?
  {
    seq(|hits|, i requires 0 <= i < |hits| => PixabayPhoto(projectId, keyword, langCode, code, category, hits[i]))
  }

  function PexelsPhotos(projectId: nat, keyword: string, langCode: string, code: string, category: Category, hits: seq<PexelsHit>): (rows: seq<Photo>)
    ensures |rows| == |hits| && OfProject(rows, projectId)
    ensures forall i :: 0 <= i < |rows| ==> InBucket(rows[i], projectId, code, category) && rows[i].description.Some?
  {
    seq(|hits|, i requires 0 <= i < |hits| => PexelsPhoto(projectId, keyword, langCode, code, category, hits[i]))
  }

  function UnsplashPhotos(projectId: nat, keyword: string, code: string, category: Category, hits: seq<UnsplashHit>): (rows: seq<Photo>)
    ensures |rows| == |hits| && OfProject(rows, projectId)
    ensures forall i :: 0 <= i < |rows| ==> InBucket(rows[i], projectId, code, category) && rows[i].description.Some?
  {
    seq(|hits|, i requires 0 <= i < |hits| => UnsplashPhoto(projectId, keyword, code, category, hits[i]))
  }

  // ---------------------------------------------------------------------
  // One search of a bucket

  /** One call of the collector's `scrapeFromPixabay`: `lang` is sent only
      when the language code is non-empty. */
  function PixabaySearch(run: Run, projectId: nat, keyword: string, langCode: string, code: string, category: Category, apis: Apis): Run {
    match apis.pixabay(keyword, OrNull(langCode))
    case None => run
    case Some(hits) => Insertion(run, PixabayPhotos(projectId, keyword, langCode, code, category, hits), true)
  }

  /** One call of the collector's `scrapeFromPexels`. */
  function PexelsSearch(run: Run, projectId: nat, keyword: string, langCode: string, code: string, category: Category, apis: Apis): Run {
    match apis.pexels(keyword, OrNull(langCode))
    case None => run
    case Some(hits) => Insertion(run, PexelsPhotos(projectId, keyword, langCode, code, category, hits), true)
  }

  /** One call of the collector's `scrapeFromUnsplash`. */
  function UnsplashSearch(run: Run, projectId: nat, keyword: string, code: string, category: Category, apis: Apis): Run {
    match apis.unsplash(keyword)
    case None => run
    case Some(hits) => Insertion(run, UnsplashPhotos(projectId, keyword, code, category, hits), true)
  }

  /** The four entries of the `sources` list of a bucket. */
  datatype Api = PixabayApi | PexelsApi | UnsplashApi | WikimediaApi
  datatype SearchSource = SearchSource(api: Api, langCode: string)

  function Sources(lang: LanguageConfig): (sources: seq<SearchSource>)
    ensures |sources| == 4
  {
    [SearchSource(PixabayApi, lang.pixabay), SearchSource(PexelsApi, lang.pexels),
     SearchSource(UnsplashApi, ""), SearchSource(WikimediaApi, "")]
  }

  /** A source the locale has no language code for: skipped without a search. */
  predicate Unsupported(source: SearchSource) {
    source.langCode == "" && source.api != UnsplashApi && source.api != WikimediaApi
  }

  /** Only Pixabay and Pexels are ever skipped, and each exactly when the
      locale has no code for it. */
  lemma SkipRule(lang: LanguageConfig)
    ensures Unsupported(Sources(lang)[0]) <==> lang.pixabay == ""
    ensures Unsupported(Sources(lang)[1]) <==> lang.pexels == ""
    ensures !Unsupported(Sources(lang)[2]) && !Unsupported(Sources(lang)[3])
  {
  }

  /** The search made for a source that is not skipped. */
  function Attempt(run: Run, projectId: nat, lang: LanguageConfig, category: Category, keyword: string, source: SearchSource, apis: Apis): Run
    requires source.api != WikimediaApi
  {
    match source.api
    case PixabayApi => PixabaySearch(run, projectId, keyword, source.langCode, lang.code, category, apis)
    case PexelsApi => PexelsSearch(run, projectId, keyword, source.langCode, lang.code, category, apis)
    case UnsplashApi => UnsplashSearch(run, projectId, keyword, lang.code, category, apis)
  }

  /** Attempts stop at `3 * n`, so the source index `floor(i / n) mod 4` never
      reaches the fourth source: Wikimedia is never searched. */
  lemma SourcesBeforeWikimedia(n: nat, index: nat)
    requires index < 3 * n
    ensures n > 0 && (index / n) % 4 < 3
  {
  }

  /** The attempts `s * n .. s * n + n - 1` all use source `s`. */
  lemma SourceSpan(n: nat, s: nat, index: nat)
    requires s < 4 && s * n <= index < s * n + n
    ensures (index / n) % 4 == s
  {
    var q := index / n;
    assert n * q <= index < n * q + n;
    MulGap(n, q, s);
    MulGap(n, s, q);
  }

  /** Between two different multiples of `n` lies a gap of at least `n`. */
  lemma MulGap(n: int, a: int, b: int)
    requires n > 0
    ensures a < b ==> n * a + n <= n * b
  {
    if a < b {
      var d := b - a;
      assert n * b == n * a + n * d;
      assert n * d >= n;
    }
  }

  // ---------------------------------------------------------------------
  // The bucket loop

  /** Where a bucket's loop ends: the run and the attempt index reached. */
  datatype Bucket = Bucket(run: Run, index: nat)

  /** The loop of `collectForLanguageAndCategory` from attempt `index` on,
      `run.added` being the bucket's `collected` counter: attempt `i` uses
      keyword `i mod n` and source `floor(i / n) mod 4`, an unsupported
      source is skipped, and the loop stops once the target is met or after
      `3 * n` attempts. */
  function CollectFrom(run: Run, index: nat, projectId: nat, lang: LanguageConfig, category: Category,
                       target: nat, keywords: seq<string>, apis: Apis): Bucket
    decreases 3 * |keywords| - index
  {
    if run.added >= target || index >= 3 * |keywords| then Bucket(run, index)
    else CollectFrom(Turn(run, index, projectId, lang, category, keywords, apis), index + 1,
                     projectId, lang, category, target, keywords, apis)
  }

  /** Once the target is met or the attempts are used up, the loop stops. */
  lemma CollectFromDone(run: Run, index: nat, projectId: nat, lang: LanguageConfig, category: Category,
                        target: nat, keywords: seq<string>, apis: Apis)
    requires run.added >= target || index >= 3 * |keywords|
    ensures CollectFrom(run, index, projectId, lang, category, target, keywords, apis) == Bucket(run, index)
  {
  }

  /** A turn taken before the target is met moves the loop on by one. */
  lemma CollectFromStep(run: Run, next: Run, index: nat, projectId: nat, lang: LanguageConfig, category: Category,
                        target: nat, keywords: seq<string>, apis: Apis)
    requires run.added < target && index < 3 * |keywords|
    requires next == Turn(run, index, projectId, lang, category, keywords, apis)
    ensures CollectFrom(run, index, projectId, lang, category, target, keywords, apis) ==
            CollectFrom(next, index + 1, projectId, lang, category, target, keywords, apis)
  {
  }

  /** Attempt `index` of a bucket: an unsupported source is skipped,
      otherwise its search is made for the attempt's keyword. */
  function Turn(run: Run, index: nat, projectId: nat, lang: LanguageConfig, category: Category,
                keywords: seq<string>, apis: Apis): Run
    requires index < 3 * |keywords|
  {
    SourcesBeforeWikimedia(|keywords|, index);
    var source := Sources(lang)[(index / |keywords|) % 4];
    if Unsupported(source) then run
    else Attempt(run, projectId, lang, category, keywords[index % |keywords|], source, apis)
  }

  /** `after` is `before` with rows of the bucket appended, the counter
      growing by exactly the rows created, each of which has a url. */
  predicate BucketGrows(before: Run, after: Run, projectId: nat, code: string, category: Category) {
    Extends(before, after, projectId) &&
    after.added - before.added == |after.photos| - |before.photos| &&
    forall k :: |before.photos| <= k < |after.photos| ==>
      InBucket(after.photos[k], projectId, code, category) && after.photos[k].url != ""
  }

  lemma BucketGrowsTrans(a: Run, b: Run, c: Run, projectId: nat, code: string, category: Category)
    requires BucketGrows(a, b, projectId, code, category) && BucketGrows(b, c, projectId, code, category)
    ensures BucketGrows(a, c, projectId, code, category)
  {
    ExtendsTrans(a, b, c, projectId);
    forall k | |a.photos| <= k < |c.photos|
      ensures InBucket(c.photos[k], projectId, code, category) && c.photos[k].url != ""
    {
      if k < |b.photos| {
        assert c.photos[k] == c.photos[..|b.photos|][k];
      }
    }
  }

  /** The dedup step on rows of the bucket grows the run as the bucket
      loop promises. */
  lemma InsertionGrows(run: Run, rows: seq<Photo>, projectId: nat, code: string, category: Category)
    requires OfProject(rows, projectId)
    requires forall i :: 0 <= i < |rows| ==> InBucket(rows[i], projectId, code, category)
    ensures BucketGrows(run, Insertion(run, rows, true), projectId, code, category)
  {
    InsertionExtends(run, rows, true, projectId);
    InsertionCreatesCandidates(run, rows, true);
    SkipEmptyCreatesNoEmptyUrl(run, rows);
  }

  /** Every search adds only rows of its bucket, and counts them exactly. */
  lemma AttemptGrows(run: Run, projectId: nat, lang: LanguageConfig, category: Category, keyword: string, source: SearchSource, apis: Apis)
    requires source.api != WikimediaApi
    ensures BucketGrows(run, Attempt(run, projectId, lang, category, keyword, source, apis), projectId, lang.code, category)
  {
    match source.api
    case PixabayApi =>
      var response := apis.pixabay(keyword, OrNull(source.langCode));
      if response.Some? {
        InsertionGrows(run, PixabayPhotos(projectId, keyword, source.langCode, lang.code, category, response.value), projectId, lang.code, category);
      }
    case PexelsApi =>
      var response := apis.pexels(keyword, OrNull(source.langCode));
      if response.Some? {
        InsertionGrows(run, PexelsPhotos(projectId, keyword, source.langCode, lang.code, category, response.value), projectId, lang.code, category);
      }
    case UnsplashApi =>
      var response := apis.unsplash(keyword);
      if response.Some? {
        InsertionGrows(run, UnsplashPhotos(projectId, keyword, lang.code, category, response.value), projectId, lang.code, category);
      }
  }

  /** A search started from the bucket's running `collected` adds its own
      count to it. */
  lemma AttemptShift(photos: seq<Photo>, seen: set<string>, total: nat, projectId: nat, lang: LanguageConfig,
                     category: Category, keyword: string, source: SearchSource, apis: Apis)
    requires source.api != WikimediaApi
    ensures var r := Attempt(Run(photos, seen, 0), projectId, lang, category, keyword, source, apis);
      Attempt(Run(photos, seen, total), projectId, lang, category, keyword, source, apis) == Run(r.photos, r.seen, total + r.added)
  {
    match source.api
    case PixabayApi =>
      var response := apis.pixabay(keyword, OrNull(source.langCode));
      if response.Some? {
        InsertionShift(photos, seen, total, PixabayPhotos(projectId, keyword, source.langCode, lang.code, category, response.value), true);
      }
    case PexelsApi =>
      var response := apis.pexels(keyword, OrNull(source.langCode));
      if response.Some? {
        InsertionShift(photos, seen, total, PexelsPhotos(projectId, keyword, source.langCode, lang.code, category, response.value), true);
      }
    case UnsplashApi =>
      var response := apis.unsplash(keyword);
      if response.Some? {
        InsertionShift(photos, seen, total, UnsplashPhotos(projectId, keyword, lang.code, category, response.value), true);
      }
  }

  /** The bucket loop ends within `3 * n` attempts, and it ends before that
      bound only when the target is met. */
  lemma {:induction false} CollectFromBounds(run: Run, index: nat, projectId: nat, lang: LanguageConfig, category: Category,
                                             target: nat, keywords: seq<string>, apis: Apis)
    requires index <= 3 * |keywords|
    ensures var b := CollectFrom(run, index, projectId, lang, category, target, keywords, apis);
      index <= b.index <= 3 * |keywords| &&
      (b.index < 3 * |keywords| ==> b.run.added >= target)
    decreases 3 * |keywords| - index
  {
    if run.added < target && index < 3 * |keywords| {
      CollectFromBounds(Turn(run, index, projectId, lang, category, keywords, apis), index + 1,
                        projectId, lang, category, target, keywords, apis);
    }
  }

  /** The bucket loop only appends rows of the bucket, each with a url, and
      its `collected` counts exactly the rows it created. */
  lemma {:induction false} CollectFromGrows(run: Run, index: nat, projectId: nat, lang: LanguageConfig, category: Category,
                                            target: nat, keywords: seq<string>, apis: Apis)
    ensures BucketGrows(run, CollectFrom(run, index, projectId, lang, category, target, keywords, apis).run,
                        projectId, lang.code, category)
    decreases 3 * |keywords| - index
  {
    if run.added >= target || index >= 3 * |keywords| {
      assert BucketGrows(run, run, projectId, lang.code, category);
    } else {
      var next := Turn(run, index, projectId, lang, category, keywords, apis);
      TurnGrows(run, index, projectId, lang, category, keywords, apis);
      CollectFromGrows(next, index + 1, projectId, lang, category, target, keywords, apis);
      BucketGrowsTrans(run, next, CollectFrom(next, index + 1, projectId, lang, category, target, keywords, apis).run,
                       projectId, lang.code, category);
    }
  }

  /** A turn either skips its source or searches it; it never searches
      Wikimedia. */
  lemma TurnCases(run: Run, index: nat, projectId: nat, lang: LanguageConfig, category: Category,
                  keywords: seq<string>, apis: Apis)
    requires index < 3 * |keywords|
    ensures var source := Sources(lang)[(index / |keywords|) % 4];
      source.api != WikimediaApi &&
      Turn(run, index, projectId, lang, category, keywords, apis) ==
        if Unsupported(source) then run
        else Attempt(run, projectId, lang, category, keywords[index % |keywords|], source, apis)
  {
    SourcesBeforeWikimedia(|keywords|, index);
  }

  /** A turn adds only rows of its bucket, and counts them exactly. */
  lemma TurnGrows(run: Run, index: nat, projectId: nat, lang: LanguageConfig, category: Category,
                  keywords: seq<string>, apis: Apis)
    requires index < 3 * |keywords|
    ensures BucketGrows(run, Turn(run, index, projectId, lang, category, keywords, apis), projectId, lang.code, category)
  {
    SourcesBeforeWikimedia(|keywords|, index);
    var source := Sources(lang)[(index / |keywords|) % 4];
    if Unsupported(source) {
      assert BucketGrows(run, run, projectId, lang.code, category);
    } else {
      AttemptGrows(run, projectId, lang, category, keywords[index % |keywords|], source, apis);
    }
  }

  /** A locale without a code for source `s` (Pixabay or Pexels) makes no
      search at any attempt of the span that source owns. */
  lemma UnsupportedTurnSkipped(run: Run, index: nat, s: nat, projectId: nat, lang: LanguageConfig,
                               category: Category, keywords: seq<string>, apis: Apis)
    requires s < 2 && Unsupported(Sources(lang)[s])
    requires s * |keywords| <= index < s * |keywords| + |keywords|
    ensures index < 3 * |keywords| && Turn(run, index, projectId, lang, category, keywords, apis) == run
  {
    SourceSpan(|keywords|, s, index);
  }

  /** Over the whole span of an unsupported source the loop only moves on:
      the run it reaches is the run it started from. */
  lemma {:induction false} UnsupportedSpanSkipped(run: Run, index: nat, s: nat, projectId: nat, lang: LanguageConfig,
                                                  category: Category, target: nat, keywords: seq<string>, apis: Apis)
    requires s < 2 && Unsupported(Sources(lang)[s])
    requires s * |keywords| <= index <= s * |keywords| + |keywords|
    ensures CollectFrom(run, index, projectId, lang, category, target, keywords, apis).run ==
            CollectFrom(run, s * |keywords| + |keywords|, projectId, lang, category, target, keywords, apis).run
    decreases s * |keywords| + |keywords| - index
  {
    if index == s * |keywords| + |keywords| {
    } else if run.added < target {
      UnsupportedTurnSkipped(run, index, s, projectId, lang, category, keywords, apis);
      CollectFromStep(run, run, index, projectId, lang, category, target, keywords, apis);
      UnsupportedSpanSkipped(run, index + 1, s, projectId, lang, category, target, keywords, apis);
    } else {
      CollectFromDone(run, index, projectId, lang, category, target, keywords, apis);
      CollectFromDone(run, s * |keywords| + |keywords|, projectId, lang, category, target, keywords, apis);
    }
  }

  // ---------------------------------------------------------------------
  // The whole collection

  /** The keyword lookup the collection uses: `GetKeywords` in the collector
      (see its constructor). */
  type KeywordLookup = (Category, string) -> seq<string>

  /** One bucket collected from zero, its count added to the running total. */
  function CollectBucket(run: Run, projectId: nat, lang: LanguageConfig, category: Category, target: nat,
                         keywordsOf: KeywordLookup, apis: Apis): Run
  {
    var b := CollectFrom(Run(run.photos, run.seen, 0), 0, projectId, lang, category, target, keywordsOf(category, lang.code), apis).run;
    Run(b.photos, b.seen, run.added + b.added)
  }

  /** The buckets of one locale, category by category. */
  function CollectLocale(run: Run, projectId: nat, lang: LanguageConfig, categories: seq<Category>, target: nat,
                         keywordsOf: KeywordLookup, apis: Apis): Run
    decreases |categories|
  {
    if categories == [] then run
    else
      var r := CollectLocale(run, projectId, lang, categories[..|categories| - 1], target, keywordsOf, apis);
      CollectBucket(r, projectId, lang, categories[|categories| - 1], target, keywordsOf, apis)
  }

  /** One more bucket of a locale: the bucket loop run from the rows reached
      so far, its count added to the running total. */
  lemma CollectLocaleNext(start: Run, projectId: nat, lang: LanguageConfig, categories: seq<Category>, j: nat,
                          target: nat, keywordsOf: KeywordLookup, apis: Apis,
                          photos: seq<Photo>, seen: set<string>, total: nat)
    requires j < |categories|
    requires var mid := CollectLocale(start, projectId, lang, categories[..j], target, keywordsOf, apis);
      var b := CollectFrom(Run(mid.photos, mid.seen, 0), 0, projectId, lang, categories[j], target,
                           keywordsOf(categories[j], lang.code), apis).run;
      photos == b.photos && seen == b.seen && total == mid.added + b.added
    ensures Run(photos, seen, total) == CollectLocale(start, projectId, lang, categories[..j + 1], target, keywordsOf, apis)
  {
    assert categories[..j + 1][..j] == categories[..j];
  }

  /** Every category of each locale in turn. */
  function CollectLocales(run: Run, projectId: nat, langs: seq<LanguageConfig>, target: nat,
                          keywordsOf: KeywordLookup, apis: Apis): Run
    decreases |langs|
  {
    if langs == [] then run
    else
      var r := CollectLocales(run, projectId, langs[..|langs| - 1], target, keywordsOf, apis);
      CollectLocale(r, projectId, langs[|langs| - 1], CATEGORIES, target, keywordsOf, apis)
  }

  lemma {:induction false} CollectLocalesAppend(run: Run, projectId: nat, a: seq<LanguageConfig>, b: seq<LanguageConfig>,
                                                target: nat, keywordsOf: KeywordLookup, apis: Apis)
    ensures CollectLocales(run, projectId, a + b, target, keywordsOf, apis) ==
            CollectLocales(CollectLocales(run, projectId, a, target, keywordsOf, apis), projectId, b, target, keywordsOf, apis)
    decreases |b|
  {
    if b == [] {
      assert a + b == a;
    } else {
      CollectLocalesAppend(run, projectId, a, b[..|b| - 1], target, keywordsOf, apis);
      assert (a + b)[..|a + b| - 1] == a + b[..|b| - 1];
    }
  }

  /** A locale started from a running total adds its own count to it. */
  lemma {:induction false} CollectLocaleShift(run: Run, projectId: nat, lang: LanguageConfig, categories: seq<Category>,
                                              target: nat, keywordsOf: KeywordLookup, apis: Apis)
    ensures var x := CollectLocale(Run(run.photos, run.seen, 0), projectId, lang, categories, target, keywordsOf, apis);
      CollectLocale(run, projectId, lang, categories, target, keywordsOf, apis) == Run(x.photos, x.seen, run.added + x.added)
    decreases |categories|
  {
    if categories != [] {
      CollectLocaleShift(run, projectId, lang, categories[..|categories| - 1], target, keywordsOf, apis);
    }
  }

  /** Locales started from a running total add their own count to it. */
  lemma {:induction false} CollectLocalesShift(run: Run, projectId: nat, langs: seq<LanguageConfig>,
                                               target: nat, keywordsOf: KeywordLookup, apis: Apis)
    ensures var x := CollectLocales(Run(run.photos, run.seen, 0), projectId, langs, target, keywordsOf, apis);
      CollectLocales(run, projectId, langs, target, keywordsOf, apis) == Run(x.photos, x.seen, run.added + x.added)
    decreases |langs|
  {
    if langs != [] {
      var front := langs[..|langs| - 1];
      CollectLocalesShift(run, projectId, front, target, keywordsOf, apis);
      var r := CollectLocales(run, projectId, front, target, keywordsOf, apis);
      CollectLocaleShift(r, projectId, langs[|langs| - 1], CATEGORIES, target, keywordsOf, apis);
      var r0 := CollectLocales(Run(run.photos, run.seen, 0), projectId, front, target, keywordsOf, apis);
      CollectLocaleShift(r0, projectId, langs[|langs| - 1], CATEGORIES, target, keywordsOf, apis);
    }
  }

  /** One more locale: its categories collected from the rows reached so
      far, its count added to the running total. */
  lemma CollectLocalesNext(start: Run, projectId: nat, langs: seq<LanguageConfig>, i: nat, target: nat,
                           keywordsOf: KeywordLookup, apis: Apis, photos: seq<Photo>, seen: set<string>, total: nat)
    requires i < |langs|
    requires var mid := CollectLocales(start, projectId, langs[..i], target, keywordsOf, apis);
      var x := CollectLocale(Run(mid.photos, mid.seen, 0), projectId, langs[i], CATEGORIES, target, keywordsOf, apis);
      photos == x.photos && seen == x.seen && total == mid.added + x.added
    ensures Run(photos, seen, total) == CollectLocales(start, projectId, langs[..i + 1], target, keywordsOf, apis)
  {
    assert langs[..i + 1][..i] == langs[..i];
    var mid := CollectLocales(start, projectId, langs[..i], target, keywordsOf, apis);
    CollectLocaleShift(mid, projectId, langs[i], CATEGORIES, target, keywordsOf, apis);
  }

  /** A row of the collection: of the project, with a url, unused, tagged
      with one of the collected locales and with a category. */
  predicate CollectedRow(p: Photo, projectId: nat, langs: seq<LanguageConfig>) {
    p.projectId == projectId && p.url != "" && p.usageCount == 0 &&
    (exists l :: l in langs && p.locale == Some(l.code)) &&
    (exists c :: p.imageType == Some(Key(c)))
  }

  /** `after` is `before` with rows of the collection appended, the total
      growing by exactly the rows created. */
  predicate Grows(before: Run, after: Run, projectId: nat, langs: seq<LanguageConfig>) {
    Extends(before, after, projectId) &&
    after.added - before.added == |after.photos| - |before.photos| &&
    forall k :: |before.photos| <= k < |after.photos| ==> CollectedRow(after.photos[k], projectId, langs)
  }

  lemma GrowsTrans(a: Run, b: Run, c: Run, projectId: nat, small: seq<LanguageConfig>, langs: seq<LanguageConfig>)
    requires forall l :: l in small ==> l in langs
    requires Grows(a, b, projectId, small) && Grows(b, c, projectId, langs)
    ensures Grows(a, c, projectId, langs)
  {
    ExtendsTrans(a, b, c, projectId);
    forall k | |a.photos| <= k < |c.photos| ensures CollectedRow(c.photos[k], projectId, langs) {
      if k < |b.photos| {
        assert c.photos[k] == c.photos[..|b.photos|][k];
        assert CollectedRow(b.photos[k], projectId, small);
      }
    }
  }

  lemma CollectBucketGrows(run: Run, projectId: nat, lang: LanguageConfig, category: Category, target: nat,
                           keywordsOf: KeywordLookup, apis: Apis)
    ensures Grows(run, CollectBucket(run, projectId, lang, category, target, keywordsOf, apis), projectId, [lang])
  {
    var start := Run(run.photos, run.seen, 0);
    var keywords := keywordsOf(category, lang.code);
    CollectFromGrows(start, 0, projectId, lang, category, target, keywords, apis);
    var b := CollectFrom(start, 0, projectId, lang, category, target, keywords, apis).run;
    var r := CollectBucket(run, projectId, lang, category, target, keywordsOf, apis);
    forall k | |run.photos| <= k < |r.photos| ensures CollectedRow(r.photos[k], projectId, [lang]) {
      assert InBucket(b.photos[k], projectId, lang.code, category);
    }
  }

  lemma {:induction false} CollectLocaleGrows(run: Run, projectId: nat, lang: LanguageConfig, categories: seq<Category>,
                                              target: nat, keywordsOf: KeywordLookup, apis: Apis)
    ensures Grows(run, CollectLocale(run, projectId, lang, categories, target, keywordsOf, apis), projectId, [lang])
    decreases |categories|
  {
    if categories == [] {
      assert Grows(run, run, projectId, [lang]);
    } else {
      var front := categories[..|categories| - 1];
      var r := CollectLocale(run, projectId, lang, front, target, keywordsOf, apis);
      CollectLocaleGrows(run, projectId, lang, front, target, keywordsOf, apis);
      CollectBucketGrows(r, projectId, lang, categories[|categories| - 1], target, keywordsOf, apis);
      GrowsTrans(run, r, CollectLocale(run, projectId, lang, categories, target, keywordsOf, apis), projectId, [lang], [lang]);
    }
  }

  /** The whole collection only appends rows of the project, each with a url,
      unused, and tagged with a collected locale and a category; no
      (project, url) pair becomes duplicated, and the total counts exactly
      the rows created. */
  lemma {:induction false} CollectLocalesGrows(run: Run, projectId: nat, langs: seq<LanguageConfig>, target: nat,
                                               keywordsOf: KeywordLookup, apis: Apis)
    ensures Grows(run, CollectLocales(run, projectId, langs, target, keywordsOf, apis), projectId, langs)
    decreases |langs|
  {
    if langs == [] {
      assert Grows(run, run, projectId, langs);
    } else {
      var front := langs[..|langs| - 1];
      var last := langs[|langs| - 1];
      var r := CollectLocales(run, projectId, front, target, keywordsOf, apis);
      CollectLocalesGrows(run, projectId, front, target, keywordsOf, apis);
      CollectLocaleGrows(r, projectId, last, CATEGORIES, target, keywordsOf, apis);
      var r' := CollectLocale(r, projectId, last, CATEGORIES, target, keywordsOf, apis);
      assert Grows(r, r', projectId, langs) by {
        forall k | |r.photos| <= k < |r'.photos| ensures CollectedRow(r'.photos[k], projectId, langs) {
          assert CollectedRow(r'.photos[k], projectId, [last]);
        }
      }
      GrowsTrans(run, r, r', projectId, front, langs);
    }
  }

  // ---------------------------------------------------------------------
  // Progress counters

  /** The progress of one locale: its total and one counter per category. */
  datatype LangProgress = LangProgress(total: nat, categories: map<Category, nat>)

  /** The sum of the counters of `cats`. */
  function CategorySum(counts: map<Category, nat>, cats: seq<Category>): nat
    requires forall c :: c in cats ==> c in counts
    decreases |cats|
  {
    if cats == [] then 0 else CategorySum(counts, cats[..|cats| - 1]) + counts[cats[|cats| - 1]]
  }

  /** A locale counts every category, and its total is their sum. */
  ghost predicate Consistent(p: LangProgress) {
    (forall c: Category :: c in p.categories) && p.total == CategorySum(p.categories, CATEGORIES)
  }

  lemma AllCategories()
    ensures forall c: Category :: c in CATEGORIES
    ensures forall i, j :: 0 <= i < j < |CATEGORIES| ==> CATEGORIES[i] != CATEGORIES[j]
  {
    forall c: Category ensures c in CATEGORIES {
      match c
      case ArtsIllustrations => assert CATEGORIES[0] == c;
      case DailyObjects => assert CATEGORIES[1] == c;
      case Documents => assert CATEGORIES[2] == c;
      case FacesPeople => assert CATEGORIES[3] == c;
      case HandwrittenNotes => assert CATEGORIES[4] == c;
      case IndoorEnvironments => assert CATEGORIES[5] == c;
      case PlacesLandscapes => assert CATEGORIES[6] == c;
      case SceneTexts => assert CATEGORIES[7] == c;
      case Animals => assert CATEGORIES[8] == c;
      case Foods => assert CATEGORIES[9] == c;
      case Screenshots => assert CATEGORIES[10] == c;
      case GraphsCharts => assert CATEGORIES[11] == c;
    }
  }

  lemma {:induction false} CategorySumZero(counts: map<Category, nat>, cats: seq<Category>)
    requires forall c :: c in cats ==> c in counts && counts[c] == 0
    ensures CategorySum(counts, cats) == 0
    decreases |cats|
  {
    if cats != [] {
      CategorySumZero(counts, cats[..|cats| - 1]);
    }
  }

  /** The sum of pointwise sums is the sum of the sums. */
  lemma {:induction false} CategorySumLinear(f: map<Category, nat>, g: map<Category, nat>, h: map<Category, nat>, cats: seq<Category>)
    requires forall c :: c in cats ==> c in f && c in g && c in h && h[c] == f[c] + g[c]
    ensures CategorySum(h, cats) == CategorySum(f, cats) + CategorySum(g, cats)
    decreases |cats|
  {
    if cats != [] {
      CategorySumLinear(f, g, h, cats[..|cats| - 1]);
    }
  }

  /** Raising one counter of a list without repeats raises the sum by as much
      when the list holds that category. */
  lemma {:induction false} CategorySumBump(counts: map<Category, nat>, category: Category, added: nat, cats: seq<Category>)
    requires category in counts && forall c :: c in cats ==> c in counts
    requires forall i, j :: 0 <= i < j < |cats| ==> cats[i] != cats[j]
    ensures CategorySum(counts[category := counts[category] + added], cats) ==
            CategorySum(counts, cats) + (if category in cats then added else 0)
    decreases |cats|
  {
    if cats != [] {
      var front := cats[..|cats| - 1];
      CategorySumBump(counts, category, added, front);
      if cats[|cats| - 1] == category {
        assert category !in front by {
          forall i | 0 <= i < |front| ensures front[i] != category {
            assert front[i] == cats[i];
          }
        }
      }
    }
  }

  /** The counters `initializeProgress` gives each locale. */
  function ZeroProgress(): (p: LangProgress)
    ensures Consistent(p) && p.total == 0
    ensures forall c :: p.categories[c] == 0
  {
    AllCategories();
    var p := LangProgress(0, map c: Category | c in CATEGORIES :: 0);
    CategorySumZero(p.categories, CATEGORIES);
    p
  }

  /** `updateProgress`: the locale's total and the category's counter both
      grow by `added`. */
  function Bumped(p: LangProgress, category: Category, added: nat): LangProgress
    requires category in p.categories
  {
    LangProgress(p.total + added, p.categories[category := p.categories[category] + added])
  }

  /** Two bumps of the same counter are one bump by their sum. */
  lemma BumpTwice(p: LangProgress, category: Category, a: nat, b: nat)
    requires category in p.categories
    ensures Bumped(Bumped(p, category, a), category, b) == Bumped(p, category, a + b)
  {
    assert Bumped(Bumped(p, category, a), category, b).categories == Bumped(p, category, a + b).categories;
  }

  /** A bump by nothing leaves the counters as they were. */
  lemma NoBump(m: map<string, LangProgress>, code: string, category: Category)
    requires code in m && category in m[code].categories
    ensures m[code := Bumped(m[code], category, 0)] == m
  {
    var p := m[code];
    assert p.categories[category := p.categories[category] + 0] == p.categories;
    assert Bumped(p, category, 0) == p;
    assert m[code := p].Keys == m.Keys;
  }

  /** Two bumps of one locale's bucket, by `a` and then by `b`, are one
      bump by `a + b`. */
  lemma ProgressStep(m0: map<string, LangProgress>, m1: map<string, LangProgress>, m2: map<string, LangProgress>,
                     code: string, category: Category, a: nat, b: nat, total: nat)
    requires code in m0 && category in m0[code].categories && total == a + b
    requires m1 == m0[code := Bumped(m0[code], category, a)]
    requires m2 == m1[code := Bumped(m1[code], category, b)]
    ensures m2 == m0[code := Bumped(m0[code], category, total)]
  {
    BumpTwice(m0[code], category, a, b);
    assert m2.Keys == m0[code := Bumped(m0[code], category, total)].Keys;
  }

  /** A bump keeps the total equal to the sum of the category counters. */
  lemma BumpKeepsConsistent(p: LangProgress, category: Category, added: nat)
    requires Consistent(p)
    ensures Consistent(Bumped(p, category, added))
    ensures Bumped(p, category, added).categories[category] == p.categories[category] + added
  {
    AllCategories();
    CategorySumBump(p.categories, category, added, CATEGORIES);
  }

  /** Every locale of `codes` is tracked with consistent counters. */
  ghost predicate Tracked(progress: map<string, LangProgress>, codes: seq<string>) {
    forall k :: k in codes ==> k in progress && Consistent(progress[k])
  }

  /** `keys` lists each tracked locale once, and every locale's total is
      the sum of its category counters. */
  ghost predicate Indexed(progress: map<string, LangProgress>, keys: seq<string>) {
    (forall i, j :: 0 <= i < j < |keys| ==> keys[i] != keys[j]) &&
    (forall k :: k in progress <==> k in keys) &&
    Tracked(progress, keys)
  }

  /** Setting the counters of one locale, listing its code when it is new,
      keeps every locale listed once and tracked. */
  lemma ResetTracked(progress: map<string, LangProgress>, keys: seq<string>, code: string, q: LangProgress,
                     keys': seq<string>)
    requires Indexed(progress, keys) && Consistent(q)
    requires keys' == if code in progress then keys else keys + [code]
    ensures Indexed(progress[code := q], keys')
  {
  }

  /** The sum of the totals of the locales `codes`. */
  function TotalSum(progress: map<string, LangProgress>, codes: seq<string>): nat
    requires forall k :: k in codes ==> k in progress
    decreases |codes|
  {
    if codes == [] then 0 else TotalSum(progress, codes[..|codes| - 1]) + progress[codes[|codes| - 1]].total
  }

  /** Replacing the counters of one locale of a list without repeats changes
      the sum of totals by the change of that locale's total. */
  lemma {:induction false} TotalSumUpdate(progress: map<string, LangProgress>, codes: seq<string>, code: string, q: LangProgress)
    requires code in progress && forall k :: k in codes ==> k in progress
    requires forall i, j :: 0 <= i < j < |codes| ==> codes[i] != codes[j]
    ensures TotalSum(progress[code := q], codes) + (if code in codes then progress[code].total else 0) ==
            TotalSum(progress, codes) + (if code in codes then q.total else 0)
    decreases |codes|
  {
    if codes != [] {
      var front := codes[..|codes| - 1];
      TotalSumUpdate(progress, front, code, q);
      if codes[|codes| - 1] == code {
        assert code !in front by {
          forall i | 0 <= i < |front| ensures front[i] != code {
            assert front[i] == codes[i];
          }
        }
      }
    }
  }

  /** The sum over the locales `codes` of one category's counter. */
  function CategoryTotal(progress: map<string, LangProgress>, codes: seq<string>, c: Category): nat
    requires Tracked(progress, codes)
    decreases |codes|
  {
    if codes == [] then 0
    else CategoryTotal(progress, codes[..|codes| - 1], c) + progress[codes[|codes| - 1]].categories[c]
  }

  /** Per category, the sum of its counters over the locales `codes`. */
  function ColumnTotals(progress: map<string, LangProgress>, codes: seq<string>): map<Category, nat>
    requires Tracked(progress, codes)
  {
    map c: Category | c in CATEGORIES :: CategoryTotal(progress, codes, c)
  }

  /** The sum of the locale totals equals the sum of the per-category
      totals: counting by locale and counting by category agree. */
  lemma {:induction false} TotalsAgree(progress: map<string, LangProgress>, codes: seq<string>)
    requires Tracked(progress, codes)
    ensures TotalSum(progress, codes) == CategorySum(ColumnTotals(progress, codes), CATEGORIES)
    decreases |codes|
  {
    AllCategories();
    if codes == [] {
      CategorySumZero(ColumnTotals(progress, codes), CATEGORIES);
    } else {
      var front := codes[..|codes| - 1];
      var last := codes[|codes| - 1];
      TotalsAgree(progress, front);
      CategorySumLinear(ColumnTotals(progress, front), progress[last].categories, ColumnTotals(progress, codes), CATEGORIES);
    }
  }

  /** The report `generateReport` builds: `sourceDistribution` stays empty. */
  datatype Report = Report(
    totalImages: nat,
    languageDistribution: map<string, nat>,
    categoryDistribution: map<Category, nat>,
    sourceDistribution: map<string, nat>)

  /** Counting one more locale adds its counters to every column. */
  lemma ColumnTotalsNext(progress: map<string, LangProgress>, codes: seq<string>, i: nat,
                         before: map<Category, nat>, after: map<Category, nat>)
    requires Tracked(progress, codes) && i < |codes|
    requires before == if i == 0 then map[] else ColumnTotals(progress, codes[..i])
    requires forall c: Category ::
               c in after && after[c] == (if c in before then before[c] else 0) + progress[codes[i]].categories[c]
    ensures after == ColumnTotals(progress, codes[..i + 1])
  {
    AllCategories();
    var front := codes[..i + 1];
    assert front[..i] == codes[..i] && front[i] == codes[i];
    forall c: Category
      ensures after[c] == ColumnTotals(progress, front)[c]
    {
      assert CategoryTotal(progress, front, c) == CategoryTotal(progress, codes[..i], c) + progress[codes[i]].categories[c];
    }
    assert after.Keys == ColumnTotals(progress, front).Keys;
  }

  /** Counting one more locale records its total under its code. */
  lemma LocaleTotalsNext(progress: map<string, LangProgress>, codes: seq<string>, i: nat,
                         before: map<string, nat>, after: map<string, nat>)
    requires Tracked(progress, codes) && i < |codes|
    requires before == map k | k in codes[..i] :: progress[k].total
    requires after == before[codes[i] := progress[codes[i]].total]
    ensures after == map k | k in codes[..i + 1] :: progress[k].total
  {
    assert codes[..i + 1] == codes[..i] + [codes[i]];
  }

  /** The inner loop of `generateReport`: one locale's counters added into
      the category distribution, a missing entry counting as zero. */
  method AddCounts(distribution: map<Category, nat>, counts: map<Category, nat>) returns (r: map<Category, nat>)
    requires forall c: Category :: c in counts
    ensures forall c: Category :: c in r && r[c] == (if c in distribution then distribution[c] else 0) + counts[c]
  {
    AllCategories();
    r := distribution;
    for j := 0 to |CATEGORIES|
      invariant forall c :: c in r <==> c in distribution || c in CATEGORIES[..j]
      invariant forall c :: c in r ==>
        r[c] == (if c in distribution then distribution[c] else 0) + (if c in CATEGORIES[..j] then counts[c] else 0)
    {
      var c := CATEGORIES[j];
      assert CATEGORIES[..j + 1] == CATEGORIES[..j] + [c];
      var previous := if c in r then r[c] else 0;
      r := r[c := previous + counts[c]];
    }
    assert CATEGORIES[..|CATEGORIES|] == CATEGORIES;
  }

  /** The report of the counters, stated by locale and by category. A
      category appears in the distribution once some locale was counted. */
  function Summary(progress: map<string, LangProgress>, codes: seq<string>): Report
    requires Tracked(progress, codes)
  {
    Report(TotalSum(progress, codes),
           map k | k in codes :: progress[k].total,
           if codes == [] then map[] else ColumnTotals(progress, codes),
           map[])
  }

  /** The report adds up: its total is the sum of the locale distribution's
      entries (one per locale) and also the sum of the category
      distribution. */
  lemma SummaryAddsUp(progress: map<string, LangProgress>, codes: seq<string>)
    requires Tracked(progress, codes) && codes != []
    ensures var r := Summary(progress, codes);
      r.totalImages == CategorySum(r.categoryDistribution, CATEGORIES) &&
      r.totalImages == TotalSum(progress, codes) &&
      r.languageDistribution.Keys == set k | k in codes &&
      r.sourceDistribution == map[]
  {
    TotalsAgree(progress, codes);
  }

  /** Locales whose counters are all zero sum to zero. */
  lemma {:induction false} FreshTotals(progress: map<string, LangProgress>, codes: seq<string>)
    requires forall k :: k in codes ==> k in progress && progress[k] == ZeroProgress()
    ensures TotalSum(progress, codes) == 0
    decreases |codes|
  {
    if codes != [] {
      FreshTotals(progress, codes[..|codes| - 1]);
    }
  }

  /** Some entry of `langs` has the locale code `k`. */
  predicate HasCode(langs: seq<LanguageConfig>, k: string) {
    exists l :: l in langs && l.code == k
  }

  /** The codes of one more locale: those before it and its own. */
  lemma HasCodeNext(langs: seq<LanguageConfig>, i: nat)
    requires i < |langs|
    ensures forall k :: HasCode(langs[..i + 1], k) <==> HasCode(langs[..i], k) || k == langs[i].code
  {
    assert langs[..i + 1] == langs[..i] + [langs[i]];
  }

  /** The counters after `initializeProgress` walked `langs`: each code set
      to zero in turn. */
  function ResetAll(progress: map<string, LangProgress>, langs: seq<LanguageConfig>): map<string, LangProgress>
    decreases |langs|
  {
    if langs == [] then progress
    else ResetAll(progress, langs[..|langs| - 1])[langs[|langs| - 1].code := ZeroProgress()]
  }

  /** One more step of the walk. */
  lemma ResetAllNext(progress: map<string, LangProgress>, langs: seq<LanguageConfig>, i: nat)
    requires i < |langs|
    ensures ResetAll(progress, langs[..i + 1]) == ResetAll(progress, langs[..i])[langs[i].code := ZeroProgress()]
  {
    assert langs[..i + 1][..i] == langs[..i];
  }

  /** After the walk, exactly the table's codes were added, each with zero
      counters, and every other locale kept its counters. */
  lemma {:induction false} ResetAllMeaning(progress: map<string, LangProgress>, langs: seq<LanguageConfig>)
    ensures forall k :: k in ResetAll(progress, langs) <==> k in progress || HasCode(langs, k)
    ensures forall k :: k in ResetAll(progress, langs) ==>
      ResetAll(progress, langs)[k] == if HasCode(langs, k) then ZeroProgress() else progress[k]
    decreases |langs|
  {
    if langs != [] {
      ResetAllMeaning(progress, langs[..|langs| - 1]);
      HasCodeNext(langs, |langs| - 1);
      assert langs[..|langs| - 1 + 1] == langs;
    }
  }

  // ---------------------------------------------------------------------
  // The collector object

  class MassiveImageCollector {
    const projectId: nat
    /** The store the scrapers write to. */
    const db: Store
    /** The locale table the collector walks: `LANGUAGES`. */
    const languages: seq<LanguageConfig>
    /** The collector's `getKeywords`: `GetKeywords`. */
    const getKeywords: KeywordLookup
    const targetTotal: nat
    const targetPerLanguage: nat
    const targetPerCategory: nat
    /** The `progress` Map; `keys` is its insertion order. */
    var progress: map<string, LangProgress>
    var keys: seq<string>
    /** The `seen` Set shared by every search of the collection. */
    var seen: set<string>

    /** The collector's counters and their list of codes are `Indexed`. */
    ghost predicate Valid()
      reads this
    {
      Indexed(progress, keys)
    }

    /** `new MassiveImageCollector(projectId)`: the targets, an empty `seen`
        set and zero counters for every locale of `LANGUAGES`. */
    constructor (projectId: nat, db: Store)
      ensures this.projectId == projectId && this.db == db
      ensures languages == LANGUAGES && getKeywords == GetKeywords
      ensures targetTotal == TARGET_TOTAL && targetPerLanguage == TargetPerLanguage() &&
              targetPerCategory == TargetPerCategory()
      ensures Valid() && seen == {}
      ensures forall k :: k in progress <==> HasCode(languages, k)
      ensures forall k :: k in progress ==> progress[k] == ZeroProgress()
    {
      this.projectId := projectId;
      this.db := db;
      languages := LANGUAGES;
      getKeywords := GetKeywords;
      targetTotal := TARGET_TOTAL;
      targetPerLanguage := TargetPerLanguage();
      targetPerCategory := TargetPerCategory();
      progress := map[];
      keys := [];
      seen := {};
      new;
      InitializeProgress();
      ResetAllMeaning(map[], languages);
    }

    /** `initializeProgress`: every locale of the table gets zero counters;
        a code met again is reset, not listed twice. */
    method InitializeProgress()
      requires Valid()
      modifies this
      ensures Valid() && seen == old(seen)
      ensures progress == ResetAll(old(progress), languages)
    {
      for i := 0 to |languages|
        invariant Valid() && seen == old(seen)
        invariant progress == ResetAll(old(progress), languages[..i])
      {
        var code := languages[i].code;
        ghost var before, keysBefore := progress, keys;
        ResetAllNext(old(progress), languages, i);
        if code !in progress {
          keys := keys + [code];
        }
        progress := progress[code := ZeroProgress()];
        ResetTracked(before, keysBefore, code, ZeroProgress(), keys);
      }
      assert languages[..|languages|] == languages;
    }

    /** `updateProgress(languageCode, categoryKey, added)`. */
    method UpdateProgress(code: string, category: Category, added: nat)
      requires Valid() && code in progress
      modifies this
      ensures Valid() && keys == old(keys) && seen == old(seen)
      ensures progress == old(progress)[code := Bumped(old(progress)[code], category, added)]
      ensures TotalSum(progress, keys) == TotalSum(old(progress), keys) + added
    {
      var p := progress[code];
      BumpKeepsConsistent(p, category, added);
      TotalSumUpdate(progress, keys, code, Bumped(p, category, added));
      progress := progress[code := Bumped(p, category, added)];
    }

    /** The collector's `scrapeFromPixabay(keyword, langCode, localeCode, categoryKey)`. */
    method ScrapeFromPixabay(keyword: string, langCode: string, code: string, category: Category, apis: Apis)
      returns (added: nat)
      modifies this, db
      ensures Run(db.photos, seen, added) ==
        PixabaySearch(Run(old(db.photos), old(seen), 0), projectId, keyword, langCode, code, category, apis)
      ensures progress == old(progress) && keys == old(keys)
      ensures unchanged(db`projects) && db.nextProjectId == old(db.nextProjectId)
    {
      var response := apis.pixabay(keyword, OrNull(langCode));
      if response.None? {
        return 0;
      }
      var seen';
      added, seen' := db.InsertNew(PixabayPhotos(projectId, keyword, langCode, code, category, response.value), seen, true);
      seen := seen';
    }

    /** The collector's `scrapeFromPexels(keyword, localeCode, fullLocaleCode, categoryKey)`. */
    method ScrapeFromPexels(keyword: string, langCode: string, code: string, category: Category, apis: Apis)
      returns (added: nat)
      modifies this, db
      ensures Run(db.photos, seen, added) ==
        PexelsSearch(Run(old(db.photos), old(seen), 0), projectId, keyword, langCode, code, category, apis)
      ensures progress == old(progress) && keys == old(keys)
      ensures unchanged(db`projects) && db.nextProjectId == old(db.nextProjectId)
    {
      var response := apis.pexels(keyword, OrNull(langCode));
      if response.None? {
        return 0;
      }
      var seen';
      added, seen' := db.InsertNew(PexelsPhotos(projectId, keyword, langCode, code, category, response.value), seen, true);
      seen := seen';
    }

    /** The collector's `scrapeFromUnsplash(keyword, localeCode, categoryKey)`. */
    method ScrapeFromUnsplash(keyword: string, code: string, category: Category, apis: Apis)
      returns (added: nat)
      modifies this, db
      ensures Run(db.photos, seen, added) ==
        UnsplashSearch(Run(old(db.photos), old(seen), 0), projectId, keyword, code, category, apis)
      ensures progress == old(progress) && keys == old(keys)
      ensures unchanged(db`projects) && db.nextProjectId == old(db.nextProjectId)
    {
      var response := apis.unsplash(keyword);
      if response.None? {
        return 0;
      }
      var seen';
      added, seen' := db.InsertNew(UnsplashPhotos(projectId, keyword, code, category, response.value), seen, true);
      seen := seen';
    }

    /** The `switch (source.name)` of the bucket loop; the Wikimedia case is
        never reached. */
    method Search(lang: LanguageConfig, category: Category, keyword: string, source: SearchSource, apis: Apis)
      returns (added: nat)
      requires source.api != WikimediaApi
      modifies this, db
      ensures Run(db.photos, seen, added) ==
        Attempt(Run(old(db.photos), old(seen), 0), projectId, lang, category, keyword, source, apis)
      ensures progress == old(progress) && keys == old(keys)
      ensures unchanged(db`projects) && db.nextProjectId == old(db.nextProjectId)
    {
      match source.api
      case PixabayApi =>
        added := ScrapeFromPixabay(keyword, source.langCode, lang.code, category, apis);
      case PexelsApi =>
        added := ScrapeFromPexels(keyword, source.langCode, lang.code, category, apis);
      case UnsplashApi =>
        added := ScrapeFromUnsplash(keyword, lang.code, category, apis);
    }

    /** `collectForLanguageAndCategory(languageConfig, categoryKey, targetCount)`:
        the bucket loop, which also raises the bucket's counters by what it
        collected. */
    method CollectForLanguageAndCategory(lang: LanguageConfig, category: Category, targetCount: nat, apis: Apis)
      returns (collected: nat)
      requires Valid() && lang.code in progress
      modifies this, db
      ensures var b := CollectFrom(Run(old(db.photos), old(seen), 0), 0, projectId, lang, category, targetCount,
                                   getKeywords(category, lang.code), apis);
        db.photos == b.run.photos && seen == b.run.seen && collected == b.run.added
      ensures Valid() && keys == old(keys)
      ensures progress == old(progress)[lang.code := Bumped(old(progress)[lang.code], category, collected)]
      ensures TotalSum(progress, keys) == TotalSum(old(progress), keys) + collected
      ensures unchanged(db`projects) && db.nextProjectId == old(db.nextProjectId)
    {
      var keywords := getKeywords(category, lang.code);
      collected := 0;
      var keywordIndex := 0;
      ghost var bucket := CollectFrom(Run(db.photos, seen, 0), 0, projectId, lang, category, targetCount, keywords, apis);
      assert category in old(progress)[lang.code].categories;
      NoBump(progress, lang.code, category);
      while collected < targetCount && keywordIndex < |keywords| * 3
        invariant Valid() && keys == old(keys)
        invariant progress == old(progress)[lang.code := Bumped(old(progress)[lang.code], category, collected)]
        invariant CollectFrom(Run(db.photos, seen, collected), keywordIndex, projectId, lang, category, targetCount, keywords, apis) == bucket
        invariant unchanged(db`projects) && db.nextProjectId == old(db.nextProjectId)
        decreases |keywords| * 3 - keywordIndex
      {
        collected := CollectTurn(lang, category, keywords, keywordIndex, collected, targetCount, old(progress), apis);
        keywordIndex := keywordIndex + 1;
      }
      CollectFromDone(Run(db.photos, seen, collected), keywordIndex, projectId, lang, category, targetCount, keywords, apis);
      TotalSumUpdate(old(progress), keys, lang.code, Bumped(old(progress)[lang.code], category, collected));
    }

    /** One pass of the bucket loop's body: the keyword and the source of
        turn `index`, skipped when the source has no code for the locale,
        otherwise searched, with the bucket's counters raised by what the
        search added. */
    method CollectTurn(lang: LanguageConfig, category: Category, keywords: seq<string>, index: nat,
                       collected: nat, ghost target: nat, ghost initial: map<string, LangProgress>, apis: Apis)
      returns (total: nat)
      requires Valid() && index < 3 * |keywords| && collected < target
      requires lang.code in initial && category in initial[lang.code].categories
      requires progress == initial[lang.code := Bumped(initial[lang.code], category, collected)]
      modifies this, db
      ensures CollectFrom(Run(db.photos, seen, total), index + 1, projectId, lang, category, target, keywords, apis) ==
              CollectFrom(Run(old(db.photos), old(seen), collected), index, projectId, lang, category, target, keywords, apis)
      ensures Valid() && keys == old(keys)
      ensures progress == initial[lang.code := Bumped(initial[lang.code], category, total)]
      ensures unchanged(db`projects) && db.nextProjectId == old(db.nextProjectId)
    {
      ghost var current := Run(db.photos, seen, collected);
      TurnCases(current, index, projectId, lang, category, keywords, apis);
      var sources := Sources(lang);
      var keyword := keywords[index % |keywords|];
      var source := sources[(index / |keywords|) % |sources|];
      if source.langCode == "" && source.api != UnsplashApi && source.api != WikimediaApi {
        CollectFromStep(current, current, index, projectId, lang, category, target, keywords, apis);
        return collected;
      }
      AttemptShift(db.photos, seen, collected, projectId, lang, category, keyword, source, apis);
      ghost var before := progress;
      var added := Search(lang, category, keyword, source, apis);
      total := collected + added;
      UpdateProgress(lang.code, category, added);
      ProgressStep(initial, before, progress, lang.code, category, collected, added, total);
      CollectFromStep(current, Run(db.photos, seen, total), index, projectId, lang, category, target, keywords, apis);
    }

    /** The inner loop of each phase of `startCollection`: every category of
        one locale, in `CATEGORIES` order, each bucket aiming at
        `targetPerCategory`. */
    method CollectCategories(lang: LanguageConfig, apis: Apis) returns (collected: nat)
      requires Valid() && lang.code in progress
      modifies this, db
      ensures Run(db.photos, seen, collected) ==
        CollectLocale(Run(old(db.photos), old(seen), 0), projectId, lang, CATEGORIES, targetPerCategory, getKeywords, apis)
      ensures Valid() && keys == old(keys) && progress.Keys == old(progress).Keys
      ensures TotalSum(progress, keys) == TotalSum(old(progress), keys) + collected
      ensures unchanged(db`projects) && db.nextProjectId == old(db.nextProjectId)
    {
      collected := 0;
      ghost var start := Run(db.photos, seen, 0);
      for j := 0 to |CATEGORIES|
        invariant Valid() && keys == old(keys) && progress.Keys == old(progress).Keys
        invariant Run(db.photos, seen, collected) ==
          CollectLocale(start, projectId, lang, CATEGORIES[..j], targetPerCategory, getKeywords, apis)
        invariant TotalSum(progress, keys) == TotalSum(old(progress), keys) + collected
        invariant unchanged(db`projects) && db.nextProjectId == old(db.nextProjectId)
      {
        var c := CollectForLanguageAndCategory(lang, CATEGORIES[j], targetPerCategory, apis);
        collected := collected + c;
        CollectLocaleNext(start, projectId, lang, CATEGORIES, j, targetPerCategory, getKeywords, apis, db.photos, seen, collected);
      }
      assert CATEGORIES[..|CATEGORIES|] == CATEGORIES;
    }

    /** One phase of `startCollection`: the locales of `langs` in order. */
    method CollectPhase(langs: seq<LanguageConfig>, apis: Apis) returns (collected: nat)
      requires Valid() && forall l :: l in langs ==> l.code in progress
      modifies this, db
      ensures Run(db.photos, seen, collected) ==
        CollectLocales(Run(old(db.photos), old(seen), 0), projectId, langs, targetPerCategory, getKeywords, apis)
      ensures Valid() && keys == old(keys) && progress.Keys == old(progress).Keys
      ensures TotalSum(progress, keys) == TotalSum(old(progress), keys) + collected
      ensures unchanged(db`projects) && db.nextProjectId == old(db.nextProjectId)
    {
      collected := 0;
      ghost var start := Run(db.photos, seen, 0);
      for i := 0 to |langs|
        invariant Valid() && keys == old(keys) && progress.Keys == old(progress).Keys
        invariant Run(db.photos, seen, collected) == CollectLocales(start, projectId, langs[..i], targetPerCategory, getKeywords, apis)
        invariant TotalSum(progress, keys) == TotalSum(old(progress), keys) + collected
        invariant unchanged(db`projects) && db.nextProjectId == old(db.nextProjectId)
      {
        var c := CollectCategories(langs[i], apis);
        collected := collected + c;
        CollectLocalesNext(start, projectId, langs, i, targetPerCategory, getKeywords, apis, db.photos, seen, collected);
      }
      assert langs[..|langs|] == langs;
    }

    /** `startCollection`: phase one, then phase two, then the report. The
        report's total is the earlier total plus exactly the rows created. */
    method StartCollection(apis: Apis) returns (report: Report)
      requires Valid() && forall l :: l in languages ==> l.code in progress
      modifies this, db
      ensures var r := CollectLocales(Run(old(db.photos), old(seen), 0), projectId, CollectionOrder(languages),
                                      targetPerCategory, getKeywords, apis);
        db.photos == r.photos && seen == r.seen &&
        report.totalImages == TotalSum(old(progress), old(keys)) + r.added
      ensures report.totalImages == TotalSum(old(progress), old(keys)) + (|db.photos| - |old(db.photos)|)
      ensures Valid() && keys == old(keys) && report == Summary(progress, keys)
      ensures unchanged(db`projects) && db.nextProjectId == old(db.nextProjectId)
    {
      PhaseOrdering(languages);
      forall l | l in CollectionOrder(languages) ensures l in languages {
        assert l in multiset(CollectionOrder(languages));
      }
      ghost var start := Run(db.photos, seen, 0);
      var totalCollected := CollectPhase(PhaseOne(languages), apis);
      ghost var mid := Run(db.photos, seen, totalCollected);
      var more := CollectPhase(PhaseTwo(languages), apis);
      CollectLocalesShift(mid, projectId, PhaseTwo(languages), targetPerCategory, getKeywords, apis);
      totalCollected := totalCollected + more;
      CollectLocalesAppend(start, projectId, PhaseOne(languages), PhaseTwo(languages), targetPerCategory, getKeywords, apis);
      CollectLocalesGrows(start, projectId, CollectionOrder(languages), targetPerCategory, getKeywords, apis);
      report := GenerateReport();
    }

    /** `generateReport`: the totals per locale, in `progress` order, and the
        counters summed per category. */
    method GenerateReport() returns (report: Report)
      requires Valid()
      ensures report == Summary(progress, keys)
    {
      var total := 0;
      var languageDistribution: map<string, nat> := map[];
      var categoryDistribution: map<Category, nat> := map[];
      for i := 0 to |keys|
        invariant total == TotalSum(progress, keys[..i])
        invariant languageDistribution == map k | k in keys[..i] :: progress[k].total
        invariant i == 0 ==> categoryDistribution == map[]
        invariant i > 0 ==> categoryDistribution == ColumnTotals(progress, keys[..i])
      {
        var code := keys[i];
        var p := progress[code];
        assert keys[..i + 1][..i] == keys[..i];
        total := total + p.total;
        LocaleTotalsNext(progress, keys, i, languageDistribution, languageDistribution[code := p.total]);
        languageDistribution := languageDistribution[code := p.total];
        ghost var before := categoryDistribution;
        categoryDistribution := AddCounts(categoryDistribution, p.categories);
        ColumnTotalsNext(progress, keys, i, before, categoryDistribution);
      }
      assert keys[..|keys|] == keys;
      report := Report(total, languageDistribution, categoryDistribution, map[]);
    }
  }
}
