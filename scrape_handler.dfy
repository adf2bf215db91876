/** The `POST /api/projects/:id/photos/scrape` handler. In `image-database`
    mode it runs, for every keyword and every selected site in request order,
    the site's scraper (once per selected locale for Pexels and Pixabay); in
    `custom-website` mode it crawls every url of the request. One `seen` set
    is shared by all the calls of a request, and the answer is the sum of
    the calls' counts. */
module ScrapeHandler {
  import opened Wrappers
  import opened Catalog
  import opened Scrapers
  import opened Crawl

  /** The fields of the request body the handler reads. `sites`, `keywords`
      and `urls` are `None` when missing or not an array, as the handler's
      `Array.isArray` tests treat them; `languages` is `None` when missing or
      falsy (the handler tests only its truthiness; a truthy value that is not
      an array is outside this model). */
  datatype ScrapeRequest = ScrapeRequest(
    mode: string,
    sites: Option<seq<string>>,
    languages: Option<seq<string>>,
    keywords: Option<seq<string>>,
    urls: Option<seq<string>>)

  // ---------------------------------------------------------------------
  // What a request does, as functions of the run so far

  /** The Pexels scraper run once per locale, in order. */
  function PexelsLocalesCall(run: Run, projectId: nat, keyword: string, locales: seq<string>, apis: Apis): Run
    decreases |locales|
  {
    if locales == [] then run
    else PexelsCall(PexelsLocalesCall(run, projectId, keyword, locales[..|locales| - 1], apis),
                    projectId, keyword, locales[|locales| - 1], apis)
  }

  /** The Pixabay scraper run once per language, in order. */
  function PixabayLangsCall(run: Run, projectId: nat, keyword: string, langs: seq<string>, apis: Apis): Run
    decreases |langs|
  {
    if langs == [] then run
    else PixabayCall(PixabayLangsCall(run, projectId, keyword, langs[..|langs| - 1], apis),
                     projectId, keyword, langs[|langs| - 1], apis)
  }

  /** One site for one keyword. The Freepik and Wikimedia branches are not
      part of this model and change nothing here; any other site falls back to
      a page scrape of its search url, which does not exist. The handler would
      URI-encode the keyword before building that url; since no url exists for
      the sites that reach this branch (`UnknownSiteAddsNothing`), the raw
      keyword stands in for the encoded one. */
  function SiteCall(run: Run, projectId: nat, keyword: string, site: string, languages: Option<seq<string>>,
                    apis: Apis, web: Web): Run
  {
    if site == "pexels" then PexelsLocalesCall(run, projectId, keyword, SiteLocales(languages, "pexels:"), apis)
    else if site == "pixabay" then PixabayLangsCall(run, projectId, keyword, SiteLocales(languages, "pixabay:"), apis)
    else if site == "unsplash" then UnsplashCall(run, projectId, keyword, apis)
    else if site == "freepik" || site == "wikimedia" then run
    else
      match BuildSearchUrl(site, keyword)
      case None => run
      case Some(searchUrl) => Insertion(run, Harvest(projectId, searchUrl, web), false)
  }

  /** Every selected site, in order, for one keyword. */
  function SitesCall(run: Run, projectId: nat, keyword: string, sites: seq<string>, languages: Option<seq<string>>,
                     apis: Apis, web: Web): Run
    decreases |sites|
  {
    if sites == [] then run
    else SiteCall(SitesCall(run, projectId, keyword, sites[..|sites| - 1], languages, apis, web),
                  projectId, keyword, sites[|sites| - 1], languages, apis, web)
  }

  /** Every keyword, in order, with every selected site. */
  function KeywordsCall(run: Run, projectId: nat, keywords: seq<string>, sites: seq<string>,
                        languages: Option<seq<string>>, apis: Apis, web: Web): Run
    decreases |keywords|
  {
    if keywords == [] then run
    else SitesCall(KeywordsCall(run, projectId, keywords[..|keywords| - 1], sites, languages, apis, web),
                   projectId, keywords[|keywords| - 1], sites, languages, apis, web)
  }

  /** Every url of a `custom-website` request crawled, in order. */
  ghost function CrawlAll(run: Run, projectId: nat, urls: seq<string>, web: Web): Run
    decreases |urls|
  {
    if urls == [] then run
    else Insertion(CrawlAll(run, projectId, urls[..|urls| - 1], web),
                   Harvests(projectId, CrawlOrder(web, urls[|urls| - 1]), web), false)
  }

  /** The answer to a request and the stored photos after it. */
  ghost function Scrape(photos: seq<Photo>, projectId: nat, req: ScrapeRequest, apis: Apis, web: Web): (Result<nat>, seq<Photo>) {
    if req.mode == "image-database" then
      if req.keywords.None? || req.sites.None? || |req.sites.value| == 0 then
        (Err(BadRequest), photos)
      else
        var r := KeywordsCall(Run(photos, {}, 0), projectId, req.keywords.value, req.sites.value, req.languages, apis, web);
        (Ok(r.added), r.photos)
    else if req.mode == "custom-website" then
      if req.urls.None? then (Err(BadRequest), photos)
      else
        var r := CrawlAll(Run(photos, {}, 0), projectId, req.urls.value, web);
        (Ok(r.added), r.photos)
    else (Err(BadRequest), photos)
  }

  // ---------------------------------------------------------------------
  // What the request does to the catalog

  lemma {:induction false} PexelsLocalesExtends(run: Run, projectId: nat, keyword: string, locales: seq<string>, apis: Apis)
    ensures Extends(run, PexelsLocalesCall(run, projectId, keyword, locales, apis), projectId)
    decreases |locales|
  {
    if locales != [] {
      var mid := PexelsLocalesCall(run, projectId, keyword, locales[..|locales| - 1], apis);
      PexelsLocalesExtends(run, projectId, keyword, locales[..|locales| - 1], apis);
      PexelsExtends(mid, projectId, keyword, locales[|locales| - 1], apis);
      ExtendsTrans(run, mid, PexelsLocalesCall(run, projectId, keyword, locales, apis), projectId);
    }
  }

  lemma {:induction false} PixabayLangsExtends(run: Run, projectId: nat, keyword: string, langs: seq<string>, apis: Apis)
    ensures Extends(run, PixabayLangsCall(run, projectId, keyword, langs, apis), projectId)
    decreases |langs|
  {
    if langs != [] {
      var mid := PixabayLangsCall(run, projectId, keyword, langs[..|langs| - 1], apis);
      PixabayLangsExtends(run, projectId, keyword, langs[..|langs| - 1], apis);
      PixabayExtends(mid, projectId, keyword, langs[|langs| - 1], apis);
      ExtendsTrans(run, mid, PixabayLangsCall(run, projectId, keyword, langs, apis), projectId);
    }
  }

  /** A site the handler has no branch for changes nothing: its search url
      does not exist. */
  lemma UnknownSiteAddsNothing(run: Run, projectId: nat, keyword: string, site: string, languages: Option<seq<string>>,
                               apis: Apis, web: Web)
    requires !DedicatedSite(site)
    ensures SiteCall(run, projectId, keyword, site, languages, apis, web) == run
  {
    SearchUrls(site, keyword);
  }

  /** Each site call only appends rows of the project, never a (project,
      url) pair already stored, and adds to the total at most the rows it
      created. */
  lemma SiteCallExtends(run: Run, projectId: nat, keyword: string, site: string, languages: Option<seq<string>>,
                        apis: Apis, web: Web)
    ensures Extends(run, SiteCall(run, projectId, keyword, site, languages, apis, web), projectId)
  {
    if site == "pexels" {
      PexelsLocalesExtends(run, projectId, keyword, SiteLocales(languages, "pexels:"), apis);
    } else if site == "pixabay" {
      PixabayLangsExtends(run, projectId, keyword, SiteLocales(languages, "pixabay:"), apis);
    } else if site == "unsplash" {
      UnsplashExtends(run, projectId, keyword, apis);
    } else if !DedicatedSite(site) {
      UnknownSiteAddsNothing(run, projectId, keyword, site, languages, apis, web);
    }
  }

  lemma {:induction false} SitesCallExtends(run: Run, projectId: nat, keyword: string, sites: seq<string>,
                                            languages: Option<seq<string>>, apis: Apis, web: Web)
    ensures Extends(run, SitesCall(run, projectId, keyword, sites, languages, apis, web), projectId)
    decreases |sites|
  {
    if sites != [] {
      var mid := SitesCall(run, projectId, keyword, sites[..|sites| - 1], languages, apis, web);
      SitesCallExtends(run, projectId, keyword, sites[..|sites| - 1], languages, apis, web);
      SiteCallExtends(mid, projectId, keyword, sites[|sites| - 1], languages, apis, web);
      ExtendsTrans(run, mid, SitesCall(run, projectId, keyword, sites, languages, apis, web), projectId);
    }
  }

  lemma {:induction false} KeywordsCallExtends(run: Run, projectId: nat, keywords: seq<string>, sites: seq<string>,
                                               languages: Option<seq<string>>, apis: Apis, web: Web)
    ensures Extends(run, KeywordsCall(run, projectId, keywords, sites, languages, apis, web), projectId)
    decreases |keywords|
  {
    if keywords != [] {
      var mid := KeywordsCall(run, projectId, keywords[..|keywords| - 1], sites, languages, apis, web);
      KeywordsCallExtends(run, projectId, keywords[..|keywords| - 1], sites, languages, apis, web);
      SitesCallExtends(mid, projectId, keywords[|keywords| - 1], sites, languages, apis, web);
      ExtendsTrans(run, mid, KeywordsCall(run, projectId, keywords, sites, languages, apis, web), projectId);
    }
  }

  /** A crawl request counts exactly the rows it created. */
  lemma {:induction false} CrawlAllExtends(run: Run, projectId: nat, urls: seq<string>, web: Web)
    ensures var r := CrawlAll(run, projectId, urls, web);
      Extends(run, r, projectId) && r.added - run.added == |r.photos| - |run.photos|
    decreases |urls|
  {
    if urls != [] {
      var mid := CrawlAll(run, projectId, urls[..|urls| - 1], web);
      var rows := Harvests(projectId, CrawlOrder(web, urls[|urls| - 1]), web);
      CrawlAllExtends(run, projectId, urls[..|urls| - 1], web);
      InsertionExtends(mid, rows, false, projectId);
      ExtendsTrans(run, mid, Insertion(mid, rows, false), projectId);
    }
  }

  /** A request is refused exactly when its mode is unknown or the mode's
      lists are missing (or, for `image-database`, no site is selected), and
      then nothing is stored. Otherwise the request only appends rows of the
      project, keeps the catalog free of duplicate (project, url) pairs, and
      answers at most the number of rows it created; a crawl answers
      exactly that number. */
  lemma ScrapeMeaning(photos: seq<Photo>, projectId: nat, req: ScrapeRequest, apis: Apis, web: Web)
    ensures var (resp, after) := Scrape(photos, projectId, req, apis, web);
      (resp.Err? <==>
        !((req.mode == "image-database" && req.keywords.Some? && req.sites.Some? && |req.sites.value| > 0) ||
          (req.mode == "custom-website" && req.urls.Some?))) &&
      (resp.Err? ==> after == photos) &&
      |photos| <= |after| && after[..|photos|] == photos &&
      (forall k :: |photos| <= k < |after| ==> after[k].projectId == projectId) &&
      (UniqueUrls(photos) ==> UniqueUrls(after)) &&
      (resp.Ok? ==> resp.value <= |after| - |photos|) &&
      (resp.Ok? && req.mode == "custom-website" ==> resp.value == |after| - |photos|)
  {
    var start := Run(photos, {}, 0);
    if req.mode == "image-database" && req.keywords.Some? && req.sites.Some? && |req.sites.value| > 0 {
      KeywordsCallExtends(start, projectId, req.keywords.value, req.sites.value, req.languages, apis, web);
    } else if req.mode == "custom-website" && req.urls.Some? {
      CrawlAllExtends(start, projectId, req.urls.value, web);
    } else {
      assert photos[..|photos|] == photos;
    }
  }

  // ---------------------------------------------------------------------
  // The handler

  /** One site for one keyword, from the handler's running `seen` set and total. */
  method ScrapeSite(store: Store, projectId: nat, keyword: string, site: string, languages: Option<seq<string>>,
                    apis: Apis, web: Web, seen: set<string>, total: nat)
    returns (seen': set<string>, total': nat)
    modifies store
    ensures Run(store.photos, seen', total') ==
      SiteCall(Run(old(store.photos), seen, total), projectId, keyword, site, languages, apis, web)
    ensures unchanged(store`projects) && store.nextProjectId == old(store.nextProjectId)
  {
    seen', total' := seen, total;
    if site == "pexels" {
      var locales := SiteLocales(languages, "pexels:");
      for i := 0 to |locales|
        invariant Run(store.photos, seen', total') ==
          PexelsLocalesCall(Run(old(store.photos), seen, total), projectId, keyword, locales[..i], apis)
        invariant unchanged(store`projects) && store.nextProjectId == old(store.nextProjectId)
      {
        ghost var before := store.photos;
        var added, s := ScrapeFromPexels(store, projectId, keyword, seen', locales[i], apis);
        PexelsShift(before, seen', total', projectId, keyword, locales[i], apis);
        assert locales[..i + 1][..i] == locales[..i];
        seen', total' := s, total' + added;
      }
      assert locales[..|locales|] == locales;
    } else if site == "pixabay" {
      var langs := SiteLocales(languages, "pixabay:");
      for i := 0 to |langs|
        invariant Run(store.photos, seen', total') ==
          PixabayLangsCall(Run(old(store.photos), seen, total), projectId, keyword, langs[..i], apis)
        invariant unchanged(store`projects) && store.nextProjectId == old(store.nextProjectId)
      {
        ghost var before := store.photos;
        var added, s := ScrapeFromPixabay(store, projectId, keyword, seen', langs[i], apis);
        PixabayShift(before, seen', total', projectId, keyword, langs[i], apis);
        assert langs[..i + 1][..i] == langs[..i];
        seen', total' := s, total' + added;
      }
      assert langs[..|langs|] == langs;
    } else if site == "unsplash" {
      ghost var before := store.photos;
      var added, s := ScrapeFromUnsplash(store, projectId, keyword, seen, apis);
      UnsplashShift(before, seen, total, projectId, keyword, apis);
      seen', total' := s, total + added;
    } else if site == "freepik" || site == "wikimedia" {
    } else {
      var searchUrl := BuildSearchUrl(site, keyword);
      if searchUrl.Some? {
        // Every site with a search url has a branch of its own above.
        assert false;
      }
    }
  }

  /** Every selected site for one keyword. */
  method ScrapeKeyword(store: Store, projectId: nat, keyword: string, sites: seq<string>, languages: Option<seq<string>>,
                       apis: Apis, web: Web, seen: set<string>, total: nat)
    returns (seen': set<string>, total': nat)
    modifies store
    ensures Run(store.photos, seen', total') ==
      SitesCall(Run(old(store.photos), seen, total), projectId, keyword, sites, languages, apis, web)
    ensures unchanged(store`projects) && store.nextProjectId == old(store.nextProjectId)
  {
    seen', total' := seen, total;
    for i := 0 to |sites|
      invariant Run(store.photos, seen', total') ==
        SitesCall(Run(old(store.photos), seen, total), projectId, keyword, sites[..i], languages, apis, web)
      invariant unchanged(store`projects) && store.nextProjectId == old(store.nextProjectId)
    {
      seen', total' := ScrapeSite(store, projectId, keyword, sites[i], languages, apis, web, seen', total');
      assert sites[..i + 1][..i] == sites[..i];
    }
    assert sites[..|sites|] == sites;
  }

  /** The crawl of every url of a `custom-website` request. */
  method CrawlUrls(store: Store, projectId: nat, urls: seq<string>, web: Web) returns (added: nat)
    modifies store
    ensures Run(store.photos, CrawlAll(Run(old(store.photos), {}, 0), projectId, urls, web).seen, added) ==
      CrawlAll(Run(old(store.photos), {}, 0), projectId, urls, web)
    ensures unchanged(store`projects) && store.nextProjectId == old(store.nextProjectId)
  {
    var seen: set<string> := {};
    added := 0;
    for i := 0 to |urls|
      invariant Run(store.photos, seen, added) == CrawlAll(Run(old(store.photos), {}, 0), projectId, urls[..i], web)
      invariant unchanged(store`projects) && store.nextProjectId == old(store.nextProjectId)
    {
      ghost var before := store.photos;
      var more, s := CrawlEntireSite(store, projectId, urls[i], seen, web);
      InsertionShift(before, seen, added, Harvests(projectId, CrawlOrder(web, urls[i]), web), false);
      assert urls[..i + 1][..i] == urls[..i];
      seen, added := s, added + more;
    }
    assert urls[..|urls|] == urls;
  }

  /** `POST /api/projects/:id/photos/scrape`. */
  method HandleScrape(store: Store, projectId: nat, req: ScrapeRequest, apis: Apis, web: Web) returns (resp: Result<nat>)
    modifies store
    ensures (resp, store.photos) == Scrape(old(store.photos), projectId, req, apis, web)
    ensures unchanged(store`projects) && store.nextProjectId == old(store.nextProjectId)
  {
    if req.mode == "image-database" {
      if req.keywords.None? || req.sites.None? || |req.sites.value| == 0 {
        return Err(BadRequest);
      }
      var keywords, sites := req.keywords.value, req.sites.value;
      var seen: set<string> := {};
      var total: nat := 0;
      for i := 0 to |keywords|
        invariant Run(store.photos, seen, total) ==
          KeywordsCall(Run(old(store.photos), {}, 0), projectId, keywords[..i], sites, req.languages, apis, web)
        invariant unchanged(store`projects) && store.nextProjectId == old(store.nextProjectId)
      {
        seen, total := ScrapeKeyword(store, projectId, keywords[i], sites, req.languages, apis, web, seen, total);
        assert keywords[..i + 1][..i] == keywords[..i];
      }
      assert keywords[..|keywords|] == keywords;
      return Ok(total);
    }
    if req.mode == "custom-website" {
      if req.urls.None? {
        return Err(BadRequest);
      }
      var added := CrawlUrls(store, projectId, req.urls.value, web);
      return Ok(added);
    }
    return Err(BadRequest);
  }
}
