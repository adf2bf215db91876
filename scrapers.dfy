/** The stock photo scrapers behind `POST /api/projects/:id/photos/scrape`:
    the search url table, the locale lists the handler derives from the
    request, the query each scraper sends, how each hit becomes a photo row,
    and the shared dedup step each applies to its rows. The answer of an API
    is an input: `None` when the request failed (the scraper then answers 0),
    otherwise the hits. */
module Scrapers {
  import opened Wrappers
  import opened Strings
  import opened Catalog

  // ---------------------------------------------------------------------
  // Search urls

  /** `buildSearchUrl(site, keyword)`, given the keyword already URI-encoded. */
  function BuildSearchUrl(site: string, encoded: string): Option<string> {
    if site == "unsplash" then Some("https://unsplash.com/s/photos/" + encoded)
    else if site == "pexels" then Some("https://www.pexels.com/search/" + encoded + "/")
    else if site == "freepik" then Some("https://www.freepik.com/search?format=search&query=" + encoded)
    else if site == "pixabay" then Some("https://pixabay.com/images/search/" + encoded + "/")
    else if site == "wikimedia" then
      Some("https://commons.wikimedia.org/w/index.php?search=" + encoded + "&title=Special:MediaSearch")
    else None
  }

  /** The sites the scrape handler has a branch of its own for. */
  predicate DedicatedSite(site: string) {
    site == "pexels" || site == "pixabay" || site == "unsplash" || site == "freepik" || site == "wikimedia"
  }

  lemma {:induction false} InfixContained(prefix: string, infix: string, suffix: string)
    ensures Contains(prefix + infix + suffix, infix)
  {
    var s := prefix + infix + suffix;
    assert s[|prefix|..|prefix| + |infix|] == infix;
    assert OccursAt(s, infix, |prefix|);
    ContainsIffOccurs(s, infix);
  }

  /** A search url exists exactly for the five sites with a branch of their
      own, so the handler's fallback (a page scrape of the search url, for any
      other site) never runs; every search url carries the keyword. */
  lemma SearchUrls(site: string, encoded: string)
    ensures BuildSearchUrl(site, encoded).Some? <==> DedicatedSite(site)
    ensures BuildSearchUrl(site, encoded).Some? ==> Contains(BuildSearchUrl(site, encoded).value, encoded)
  {
    if site == "unsplash" {
      InfixContained("https://unsplash.com/s/photos/", encoded, "");
      assert "https://unsplash.com/s/photos/" + encoded + "" == "https://unsplash.com/s/photos/" + encoded;
    } else if site == "pexels" {
      InfixContained("https://www.pexels.com/search/", encoded, "/");
    } else if site == "freepik" {
      InfixContained("https://www.freepik.com/search?format=search&query=", encoded, "");
      assert "https://www.freepik.com/search?format=search&query=" + encoded + "" ==
        "https://www.freepik.com/search?format=search&query=" + encoded;
    } else if site == "pixabay" {
      InfixContained("https://pixabay.com/images/search/", encoded, "/");
    } else if site == "wikimedia" {
      InfixContained("https://commons.wikimedia.org/w/index.php?search=", encoded, "&title=Special:MediaSearch");
    }
  }

  // ---------------------------------------------------------------------
  // Locale lists

  /** `languages.filter(l => l.startsWith(tag)).map(l => l.replace(tag, ''))`:
      the entries tagged for one site, tag removed (the first occurrence of
      the tag, which `replace` removes, is the leading one). */
  function Tagged(languages: seq<string>, tag: string): (r: seq<string>)
    ensures |r| <= |languages|
  {
    if languages == [] then []
    else (if StartsWith(languages[0], tag) then [languages[0][|tag|..]] else []) + Tagged(languages[1..], tag)
  }

  /** The locales the handler runs one site's scraper with: `['']` without a
      `languages` field, else the entries tagged for the site, or `['']` when
      none is. */
  function SiteLocales(languages: Option<seq<string>>, tag: string): seq<string> {
    if languages.None? then [""]
    else
      var picked := Tagged(languages.value, tag);
      if picked == [] then [""] else picked
  }

  /** A locale comes from an entry carrying the tag, and every such entry
      gives one. */
  lemma {:induction false} TaggedMembers(languages: seq<string>, tag: string)
    ensures forall x :: x in Tagged(languages, tag) <==>
      exists l :: l in languages && StartsWith(l, tag) && x == l[|tag|..]
  {
    if languages != [] {
      TaggedMembers(languages[1..], tag);
      assert languages == [languages[0]] + languages[1..];
    }
  }

  /** The scraper runs at least once per site, with the default locale when
      the request tags none for it, else exactly with the tagged locales. */
  lemma SiteLocalesMeaning(languages: Option<seq<string>>, tag: string)
    ensures SiteLocales(languages, tag) != []
    ensures (languages.None? || forall l :: l in languages.value ==> !StartsWith(l, tag)) ==>
      SiteLocales(languages, tag) == [""]
    ensures languages.Some? && (exists l :: l in languages.value && StartsWith(l, tag)) ==>
      forall x :: x in SiteLocales(languages, tag) <==>
        exists l :: l in languages.value && StartsWith(l, tag) && x == l[|tag|..]
  {
    if languages.Some? {
      TaggedMembers(languages.value, tag);
      if Tagged(languages.value, tag) != [] {
        assert Tagged(languages.value, tag)[0] in Tagged(languages.value, tag);
      }
      if exists l :: l in languages.value && StartsWith(l, tag) {
        var l :| l in languages.value && StartsWith(l, tag);
        assert l[|tag|..] in Tagged(languages.value, tag);
      }
    }
  }

  // ---------------------------------------------------------------------
  // Hits and rows

  /** A Pexels hit: `src.original` and `alt`. */
  datatype PexelsHit = PexelsHit(original: string, alt: string)

  /** An Unsplash hit: `urls.full`, `urls.regular`, `alt_description`,
      `description` and the `location.country` its detail request found (''
      when that request failed or the photo has none). */
  datatype UnsplashHit = UnsplashHit(full: string, regular: string, altDescription: string, description: string, country: string)

  /** A Pixabay hit: `id`, `largeImageURL`, `webformatURL` and `tags`. */
  datatype PixabayHit = PixabayHit(id: Option<nat>, largeImageURL: string, webformatURL: string, tags: string)

  /** `s || null` on a string field. */
  function OrNull(s: string): (r: Option<string>)
    ensures r.None? <==> s == ""
    ensures r.Some? ==> r.value == s
  {
    if s == "" then None else Some(s)
  }

  /** `a || b` on string fields. */
  function Or(a: string, b: string): (r: string)
    ensures r == "" <==> a == "" && b == ""
    ensures r == a || r == b
  {
    if a != "" then a else b
  }

  function Source(name: string): Metadata {
    Metadata(Some(name), None, None, None)
  }

  /** The row `scrapeFromPexels` creates for a hit. */
  function PexelsRow(projectId: nat, locale: string, hit: PexelsHit): Photo {
    Photo(projectId, hit.original, 0, None, OrNull(locale), OrNull(hit.alt), None, None, Source("pexels"))
  }

  /** The row `scrapeFromUnsplash` creates for a hit. */
  function UnsplashRow(projectId: nat, hit: UnsplashHit): Photo {
    Photo(projectId, Or(hit.full, hit.regular), 0, None, OrNull(hit.country),
          OrNull(Or(hit.altDescription, hit.description)), None, None, Source("unsplash"))
  }

  /** The row `scrapeFromPixabay` creates for a hit: its locale is the
      language asked for (even '') unless that is 'ignore', then the keyword. */
  function PixabayRow(projectId: nat, keyword: string, lang: string, hit: PixabayHit): Photo {
    Photo(projectId, Or(hit.largeImageURL, hit.webformatURL), 0, None,
          Some(if lang != "ignore" then lang else keyword), OrNull(hit.tags), None, None,
          Metadata(Some("pixabay"), hit.id, None, None))
  }

  function PexelsRows(projectId: nat, locale: string, hits: seq<PexelsHit>): (rows: seq<Photo>)
    ensures |rows| == |hits| && OfProject(rows, projectId)
    ensures forall i :: 0 <= i < |hits| ==> rows[i] == PexelsRow(projectId, locale, hits[i])
  {
    seq(|hits|, i requires 0 <= i < |hits| => PexelsRow(projectId, locale, hits[i]))
  }

  function UnsplashRows(projectId: nat, hits: seq<UnsplashHit>): (rows: seq<Photo>)
    ensures |rows| == |hits| && OfProject(rows, projectId)
    ensures forall i :: 0 <= i < |hits| ==> rows[i] == UnsplashRow(projectId, hits[i])
  {
    seq(|hits|, i requires 0 <= i < |hits| => UnsplashRow(projectId, hits[i]))
  }

  function PixabayRows(projectId: nat, keyword: string, lang: string, hits: seq<PixabayHit>): (rows: seq<Photo>)
    ensures |rows| == |hits| && OfProject(rows, projectId)
    ensures forall i :: 0 <= i < |hits| ==> rows[i] == PixabayRow(projectId, keyword, lang, hits[i])
  {
    seq(|hits|, i requires 0 <= i < |hits| => PixabayRow(projectId, keyword, lang, hits[i]))
  }

  // ---------------------------------------------------------------------
  // The API calls

  /** The stock photo APIs: what each search request answers. Pexels and
      Pixabay take the keyword and the optional locale/language parameter. */
  datatype Apis = Apis(
    pexels: (string, Option<string>) -> Option<seq<PexelsHit>>,
    unsplash: string -> Option<seq<UnsplashHit>>,
    pixabay: (string, Option<string>) -> Option<seq<PixabayHit>>)

  /** The `locale` parameter of the Pexels search: sent for a non-empty locale only. */
  function PexelsLocaleParam(locale: string): Option<string> {
    OrNull(locale)
  }

  /** The `lang` parameter of the Pixabay search: sent unless the language
      is '' or 'ignore'. */
  function PixabayLangParam(lang: string): (r: Option<string>)
    ensures r.None? <==> lang == "" || lang == "ignore"
    ensures r.Some? ==> r.value == lang
  {
    if lang != "" && lang != "ignore" then Some(lang) else None
  }

  /** Index of the first row without a url, or the number of rows. */
  function FirstEmptyUrl(rows: seq<Photo>): (k: nat)
    ensures k <= |rows|
    ensures forall i :: 0 <= i < k ==> rows[i].url != ""
    ensures k < |rows| ==> rows[k].url == ""
  {
    if rows == [] || rows[0].url == "" then 0 else 1 + FirstEmptyUrl(rows[1..])
  }

  /** `scrapeFromPexels` tests no empty url: a hit without `src.original`
      that is not yet seen is marked seen, and creating its row breaks the
      schema's required `url`, so the call ends there and answers 0, keeping
      the rows it created before. */
  predicate PexelsAborts(mid: Run, rows: seq<Photo>, projectId: nat) {
    FirstEmptyUrl(rows) < |rows| && "" !in mid.seen && !Stored(mid.photos, projectId, "")
  }

  /** One `scrapeFromPexels` call, on a run whose counter is the handler's total. */
  function PexelsCall(run: Run, projectId: nat, keyword: string, locale: string, apis: Apis): Run {
    match apis.pexels(keyword, PexelsLocaleParam(locale))
    case None => run
    case Some(hits) =>
      var rows := PexelsRows(projectId, locale, hits);
      var mid := Insertion(run, rows[..FirstEmptyUrl(rows)], false);
      if PexelsAborts(mid, rows, projectId) then Run(mid.photos, mid.seen + {""}, run.added)
      else Insertion(mid, rows[FirstEmptyUrl(rows)..], false)
  }

  /** One `scrapeFromUnsplash` call. */
  function UnsplashCall(run: Run, projectId: nat, keyword: string, apis: Apis): Run {
    match apis.unsplash(keyword)
    case None => run
    case Some(hits) => Insertion(run, UnsplashRows(projectId, hits), true)
  }

  /** One `scrapeFromPixabay` call. */
  function PixabayCall(run: Run, projectId: nat, keyword: string, lang: string, apis: Apis): Run {
    match apis.pixabay(keyword, PixabayLangParam(lang))
    case None => run
    case Some(hits) => Insertion(run, PixabayRows(projectId, keyword, lang, hits), true)
  }

  /** While every hit has a url, or the empty url was already seen, a Pexels
      call is the plain dedup step on its rows. */
  lemma PexelsWithoutAbort(run: Run, projectId: nat, keyword: string, locale: string, apis: Apis)
    requires apis.pexels(keyword, PexelsLocaleParam(locale)).Some?
    requires (forall i :: 0 <= i < |apis.pexels(keyword, PexelsLocaleParam(locale)).value| ==>
                apis.pexels(keyword, PexelsLocaleParam(locale)).value[i].original != "") || "" in run.seen
    ensures PexelsCall(run, projectId, keyword, locale, apis) ==
      Insertion(run, PexelsRows(projectId, locale, apis.pexels(keyword, PexelsLocaleParam(locale)).value), false)
  {
    var hits := apis.pexels(keyword, PexelsLocaleParam(locale)).value;
    var rows := PexelsRows(projectId, locale, hits);
    var k := FirstEmptyUrl(rows);
    assert rows[..k] + rows[k..] == rows;
    var mid := Insertion(run, rows[..k], false);
    if k < |rows| {
      assert hits[k].original == "";
      assert OfProject(rows[..k], projectId);
      InsertionExtends(run, rows[..k], false, projectId);
      assert "" in mid.seen;
    }
    assert !PexelsAborts(mid, rows, projectId);
    InsertionAppend(run, rows[..k], rows[k..], false);
  }

  /** Each scraper call only appends rows of its project, never a (project,
      url) pair already stored, and adds to the total at most the rows it
      created; a Pexels call that ends on a missing url adds nothing. */
  lemma PexelsExtends(run: Run, projectId: nat, keyword: string, locale: string, apis: Apis)
    ensures Extends(run, PexelsCall(run, projectId, keyword, locale, apis), projectId)
  {
    var response := apis.pexels(keyword, PexelsLocaleParam(locale));
    if response.Some? {
      var rows := PexelsRows(projectId, locale, response.value);
      var k := FirstEmptyUrl(rows);
      assert OfProject(rows[..k], projectId) && OfProject(rows[k..], projectId);
      InsertionExtends(run, rows[..k], false, projectId);
      var mid := Insertion(run, rows[..k], false);
      if !PexelsAborts(mid, rows, projectId) {
        InsertionExtends(mid, rows[k..], false, projectId);
        ExtendsTrans(run, mid, Insertion(mid, rows[k..], false), projectId);
      }
    }
  }

  lemma UnsplashExtends(run: Run, projectId: nat, keyword: string, apis: Apis)
    ensures Extends(run, UnsplashCall(run, projectId, keyword, apis), projectId)
  {
    var response := apis.unsplash(keyword);
    if response.Some? {
      InsertionExtends(run, UnsplashRows(projectId, response.value), true, projectId);
    }
  }

  lemma PixabayExtends(run: Run, projectId: nat, keyword: string, lang: string, apis: Apis)
    ensures Extends(run, PixabayCall(run, projectId, keyword, lang, apis), projectId)
  {
    var response := apis.pixabay(keyword, PixabayLangParam(lang));
    if response.Some? {
      InsertionExtends(run, PixabayRows(projectId, keyword, lang, response.value), true, projectId);
    }
  }

  /** The Unsplash and Pixabay scrapers never create a row without a url. */
  lemma {:induction false} SkipEmptyCreatesNoEmptyUrl(run: Run, candidates: seq<Photo>)
    ensures var r := Insertion(run, candidates, true);
      |run.photos| <= |r.photos| && forall k :: |run.photos| <= k < |r.photos| ==> r.photos[k].url != ""
    decreases |candidates|
  {
    if candidates != [] {
      SkipEmptyCreatesNoEmptyUrl(run, candidates[..|candidates| - 1]);
      var mid := Insertion(run, candidates[..|candidates| - 1], true);
      var r := Step(mid, candidates[|candidates| - 1], true);
      forall k | |run.photos| <= k < |r.photos| ensures r.photos[k].url != "" {
        if k < |mid.photos| {
          assert r.photos[k] == mid.photos[k];
        }
      }
    }
  }

  // ---------------------------------------------------------------------
  // The scrapers

  /** `scrapeFromPexels(projectId, keyword, seen, locale)`: answers the rows
      it created and the grown `seen` set. */
  method ScrapeFromPexels(store: Store, projectId: nat, keyword: string, seen: set<string>, locale: string, apis: Apis)
    returns (added: nat, seen': set<string>)
    modifies store
    ensures Run(store.photos, seen', added) == PexelsCall(Run(old(store.photos), seen, 0), projectId, keyword, locale, apis)
    ensures unchanged(store`projects) && store.nextProjectId == old(store.nextProjectId)
  {
    var response := apis.pexels(keyword, PexelsLocaleParam(locale));
    if response.None? {
      return 0, seen;
    }
    var rows := PexelsRows(projectId, locale, response.value);
    var k := FirstEmptyUrl(rows);
    added, seen' := store.InsertNew(rows[..k], seen, false);
    if k < |rows| && "" !in seen' && !Stored(store.photos, projectId, "") {
      return 0, seen' + {""};
    }
    ghost var mid := store.photos;
    var more, rest := store.InsertNew(rows[k..], seen', false);
    InsertionShift(mid, seen', added, rows[k..], false);
    added, seen' := added + more, rest;
  }

  /** `scrapeFromUnsplash(projectId, keyword, seen)`. */
  method ScrapeFromUnsplash(store: Store, projectId: nat, keyword: string, seen: set<string>, apis: Apis)
    returns (added: nat, seen': set<string>)
    modifies store
    ensures Run(store.photos, seen', added) == UnsplashCall(Run(old(store.photos), seen, 0), projectId, keyword, apis)
    ensures unchanged(store`projects) && store.nextProjectId == old(store.nextProjectId)
  {
    var response := apis.unsplash(keyword);
    if response.None? {
      return 0, seen;
    }
    added, seen' := store.InsertNew(UnsplashRows(projectId, response.value), seen, true);
  }

  /** `scrapeFromPixabay(projectId, keyword, seen, lang)`. */
  method ScrapeFromPixabay(store: Store, projectId: nat, keyword: string, seen: set<string>, lang: string, apis: Apis)
    returns (added: nat, seen': set<string>)
    modifies store
    ensures Run(store.photos, seen', added) == PixabayCall(Run(old(store.photos), seen, 0), projectId, keyword, lang, apis)
    ensures unchanged(store`projects) && store.nextProjectId == old(store.nextProjectId)
  {
    var response := apis.pixabay(keyword, PixabayLangParam(lang));
    if response.None? {
      return 0, seen;
    }
    added, seen' := store.InsertNew(PixabayRows(projectId, keyword, lang, response.value), seen, true);
  }

  /** A Pexels call started from the handler's running total adds its own
      count to it. */
  lemma PexelsShift(photos: seq<Photo>, seen: set<string>, total: nat, projectId: nat, keyword: string, locale: string, apis: Apis)
    ensures var r := PexelsCall(Run(photos, seen, 0), projectId, keyword, locale, apis);
      PexelsCall(Run(photos, seen, total), projectId, keyword, locale, apis) == Run(r.photos, r.seen, total + r.added)
  {
    var response := apis.pexels(keyword, PexelsLocaleParam(locale));
    if response.Some? {
      var rows := PexelsRows(projectId, locale, response.value);
      var k := FirstEmptyUrl(rows);
      InsertionShift(photos, seen, total, rows[..k], false);
      var mid := Insertion(Run(photos, seen, 0), rows[..k], false);
      InsertionShift(mid.photos, mid.seen, total + mid.added, rows[k..], false);
      InsertionShift(mid.photos, mid.seen, mid.added, rows[k..], false);
    }
  }

  lemma UnsplashShift(photos: seq<Photo>, seen: set<string>, total: nat, projectId: nat, keyword: string, apis: Apis)
    ensures var r := UnsplashCall(Run(photos, seen, 0), projectId, keyword, apis);
      UnsplashCall(Run(photos, seen, total), projectId, keyword, apis) == Run(r.photos, r.seen, total + r.added)
  {
    var response := apis.unsplash(keyword);
    if response.Some? {
      InsertionShift(photos, seen, total, UnsplashRows(projectId, response.value), true);
    }
  }

  lemma PixabayShift(photos: seq<Photo>, seen: set<string>, total: nat, projectId: nat, keyword: string, lang: string, apis: Apis)
    ensures var r := PixabayCall(Run(photos, seen, 0), projectId, keyword, lang, apis);
      PixabayCall(Run(photos, seen, total), projectId, keyword, lang, apis) == Run(r.photos, r.seen, total + r.added)
  {
    var response := apis.pixabay(keyword, PixabayLangParam(lang));
    if response.Some? {
      InsertionShift(photos, seen, total, PixabayRows(projectId, keyword, lang, response.value), true);
    }
  }
}
