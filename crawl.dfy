/** `scrapeSinglePage` and `crawlEntireSite`: the page scraper that offers
    every `img`/`source` element of a page to the dedup step, and the crawler
    that walks a site from its base url with a LIFO worklist and a `visited`
    set, following only the links that stay under the base url. The web is an
    input: the pages that load, and the resolution of relative urls. */
module Crawl {
  import opened Wrappers
  import opened Strings
  import opened Catalog

  /** An `img` or `source` element: its `src` ('' when absent) and its `srcset`. */
  datatype Image = Image(src: string, srcset: Option<string>)

  /** A page that loads: its `img`/`source` elements and the `href` of each
      `a[href]`, in document order. */
  datatype Page = Page(images: seq<Image>, hrefs: seq<string>)

  /** The web as the crawler sees it: the pages that load (a GET of any other
      url fails) and `new URL(relative, base).href`. */
  datatype Web = Web(pages: map<string, Page>, resolve: (string, string) -> string)

  // ---------------------------------------------------------------------
  // One page

  /** `$(el).attr('src') || $(el).attr('srcset')?.split(' ')[0]`, with ''
      standing for every falsy answer. */
  function RawSrc(img: Image): string {
    if img.src != "" then img.src
    else if img.srcset.Some? then BeforeFirst(img.srcset.value, ' ')
    else ""
  }

  /** An element offers no url exactly when it has no `src` and its `srcset`
      is absent or starts with a space; a url taken from `srcset` is its
      first space-free word. */
  lemma RawSrcRule(img: Image)
    ensures RawSrc(img) == "" <==>
      img.src == "" && (img.srcset.None? || img.srcset.value == "" || img.srcset.value[0] == ' ')
    ensures img.src == "" && RawSrc(img) != "" ==>
      StartsWith(img.srcset.value, RawSrc(img)) && ' ' !in RawSrc(img)
  {
    if img.src == "" && img.srcset.Some? && img.srcset.value != "" && img.srcset.value[0] != ' ' {
      assert RawSrc(img)[0] == img.srcset.value[0];
    }
  }

  /** `raw.startsWith('http') ? raw : new URL(raw, base).href`. */
  function Absolute(raw: string, base: string, web: Web): string {
    if StartsWith(raw, "http") then raw else web.resolve(raw, base)
  }

  /** The rows a page offers to the dedup step, in document order: a bare
      row (project, url, usage 0) for each element with a url. */
  function PageRows(projectId: nat, url: string, images: seq<Image>, web: Web): (rows: seq<Photo>)
    ensures |rows| <= |images| && OfProject(rows, projectId)
    decreases |images|
  {
    if images == [] then []
    else
      var raw := RawSrc(images[0]);
      (if raw == "" then [] else [BarePhoto(projectId, Absolute(raw, url, web))]) +
      PageRows(projectId, url, images[1..], web)
  }

  /** A page offers exactly one row per element with a url, and nothing else. */
  lemma {:induction false} PageRowsMeaning(projectId: nat, url: string, images: seq<Image>, web: Web)
    ensures forall p :: p in PageRows(projectId, url, images, web) <==>
      exists img :: img in images && RawSrc(img) != "" && p == BarePhoto(projectId, Absolute(RawSrc(img), url, web))
    decreases |images|
  {
    if images != [] {
      PageRowsMeaning(projectId, url, images[1..], web);
      assert images == [images[0]] + images[1..];
    }
  }

  /** What one `scrapeSinglePage(projectId, url, seen)` call offers to the
      dedup step: the page's rows, or nothing when the page does not load. */
  function Harvest(projectId: nat, url: string, web: Web): (rows: seq<Photo>)
    ensures OfProject(rows, projectId)
  {
    if url in web.pages then PageRows(projectId, url, web.pages[url].images, web) else []
  }

  /** `scrapeSinglePage(projectId, url, seen)`: answers the rows it created
      and the grown `seen` set. */
  method ScrapeSinglePage(store: Store, projectId: nat, url: string, seen: set<string>, web: Web)
    returns (added: nat, seen': set<string>)
    modifies store
    ensures Run(store.photos, seen', added) == Insertion(Run(old(store.photos), seen, 0), Harvest(projectId, url, web), false)
    ensures unchanged(store`projects) && store.nextProjectId == old(store.nextProjectId)
  {
    if url !in web.pages {
      return 0, seen;
    }
    added, seen' := store.InsertNew(PageRows(projectId, url, web.pages[url].images, web), seen, false);
  }

  // ---------------------------------------------------------------------
  // Links

  /** An `href` the crawler follows: non-empty, not `mailto:` and not `tel:`. */
  predicate Followable(href: string) {
    href != "" && !StartsWith(href, "mailto:") && !StartsWith(href, "tel:")
  }

  /** The urls `current` pushes, in document order: the followable links
      that resolve under the base url and are not visited yet. */
  function NewLinks(hrefs: seq<string>, current: string, baseUrl: string, visited: set<string>, web: Web): seq<string>
    decreases |hrefs|
  {
    if hrefs == [] then []
    else
      var front := NewLinks(hrefs[..|hrefs| - 1], current, baseUrl, visited, web);
      var href := hrefs[|hrefs| - 1];
      var target := Absolute(href, current, web);
      if Followable(href) && StartsWith(target, baseUrl) && target !in visited then front + [target] else front
  }

  /** What a visited url pushes: its new links, or nothing when it does not load. */
  function Pushed(web: Web, baseUrl: string, current: string, visited: set<string>): seq<string> {
    if current in web.pages then NewLinks(web.pages[current].hrefs, current, baseUrl, visited, web) else []
  }

  /** The links of a page under the base url, in document order. */
  function Links(web: Web, baseUrl: string, u: string): seq<string> {
    Pushed(web, baseUrl, u, {})
  }

  lemma {:induction false} NewLinksMeaning(hrefs: seq<string>, current: string, baseUrl: string, visited: set<string>, web: Web)
    ensures forall t :: t in NewLinks(hrefs, current, baseUrl, visited, web) <==>
      t !in visited &&
      (exists h :: h in hrefs && Followable(h) && StartsWith(Absolute(h, current, web), baseUrl) &&
                   t == Absolute(h, current, web))
    decreases |hrefs|
  {
    if hrefs != [] {
      var front := hrefs[..|hrefs| - 1];
      NewLinksMeaning(front, current, baseUrl, visited, web);
      assert hrefs == front + [hrefs[|hrefs| - 1]];
    }
  }

  /** The links of a page are its non-empty, non-`mailto:`, non-`tel:` hrefs,
      resolved against the page, that start with the base url. */
  lemma LinksMeaning(web: Web, baseUrl: string, u: string)
    ensures forall t :: t in Links(web, baseUrl, u) <==>
      u in web.pages &&
      (exists h :: h in web.pages[u].hrefs && Followable(h) && StartsWith(Absolute(h, u, web), baseUrl) &&
                   t == Absolute(h, u, web))
  {
    if u in web.pages {
      NewLinksMeaning(web.pages[u].hrefs, u, baseUrl, {}, web);
    }
  }

  lemma {:induction false} NewLinksFilter(hrefs: seq<string>, current: string, baseUrl: string, visited: set<string>, web: Web)
    ensures forall t :: t in NewLinks(hrefs, current, baseUrl, visited, web) <==>
      t in NewLinks(hrefs, current, baseUrl, {}, web) && t !in visited
    decreases |hrefs|
  {
    if hrefs != [] {
      NewLinksFilter(hrefs[..|hrefs| - 1], current, baseUrl, visited, web);
    }
  }

  /** A visited url pushes exactly its links that are not visited yet. */
  lemma PushedMeaning(web: Web, baseUrl: string, current: string, visited: set<string>)
    ensures forall t :: t in Pushed(web, baseUrl, current, visited) <==>
      t in Links(web, baseUrl, current) && t !in visited
  {
    if current in web.pages {
      NewLinksFilter(web.pages[current].hrefs, current, baseUrl, visited, web);
    }
  }

  /** The `$('a[href]').each(...)` loop of a visited page: pushes the page's
      new links onto the worklist. */
  method PushLinks(hrefs: seq<string>, current: string, baseUrl: string, visited: set<string>, web: Web, toVisit: seq<string>)
    returns (toVisit': seq<string>)
    ensures toVisit' == toVisit + NewLinks(hrefs, current, baseUrl, visited, web)
  {
    toVisit' := toVisit;
    for i := 0 to |hrefs|
      invariant toVisit' == toVisit + NewLinks(hrefs[..i], current, baseUrl, visited, web)
    {
      assert hrefs[..i + 1][..i] == hrefs[..i];
      var href := hrefs[i];
      if href != "" && !StartsWith(href, "mailto:") && !StartsWith(href, "tel:") {
        var newUrl := if StartsWith(href, "http") then href else web.resolve(href, current);
        if StartsWith(newUrl, baseUrl) && newUrl !in visited {
          toVisit' := toVisit' + [newUrl];
        }
      }
    }
    assert hrefs[..|hrefs|] == hrefs;
  }

  // ---------------------------------------------------------------------
  // The crawl order

  /** `universe` holds the base url and every link target of every page that
      loads. */
  ghost predicate Covers(web: Web, baseUrl: string, universe: set<string>) {
    baseUrl in universe &&
    forall u, h :: u in web.pages && h in web.pages[u].hrefs ==> Absolute(h, u, web) in universe
  }

  /** Every url the crawl can meet. It is finite, which bounds the crawl. */
  ghost function Universe(web: Web, baseUrl: string): (universe: set<string>)
    ensures Covers(web, baseUrl, universe)
  {
    {baseUrl} + set u, h | u in web.pages && h in web.pages[u].hrefs :: Absolute(h, u, web)
  }

  ghost predicate Bounded(universe: set<string>, stack: seq<string>, visited: set<string>) {
    visited <= universe && forall t :: t in stack ==> t in universe
  }

  lemma PushedCovered(web: Web, baseUrl: string, universe: set<string>, current: string, visited: set<string>)
    requires Covers(web, baseUrl, universe)
    ensures forall t :: t in Pushed(web, baseUrl, current, visited) ==> t in universe
  {
    if current in web.pages {
      NewLinksMeaning(web.pages[current].hrefs, current, baseUrl, visited, web);
    }
  }

  /** Visiting a new url of the universe leaves fewer to visit. */
  lemma VisitShrinks(universe: set<string>, visited: set<string>, current: string)
    requires current in universe && current !in visited
    ensures |universe - (visited + {current})| < |universe - visited|
  {
    assert universe - visited == (universe - (visited + {current})) + {current};
  }

  lemma NextBounded(web: Web, baseUrl: string, universe: set<string>, stack: seq<string>, visited: set<string>)
    requires Covers(web, baseUrl, universe) && Bounded(universe, stack, visited) && stack != []
    ensures var current := stack[|stack| - 1];
      Bounded(universe, stack[..|stack| - 1], visited) &&
      Bounded(universe, stack[..|stack| - 1] + Pushed(web, baseUrl, current, visited + {current}), visited + {current})
  {
    var current := stack[|stack| - 1];
    assert current in stack;
    PushedCovered(web, baseUrl, universe, current, visited + {current});
    assert stack == stack[..|stack| - 1] + [current];
  }

  /** The urls `crawlEntireSite` visits from a worklist and a visited set, in
      order: it pops the last url, passes over it when visited, and otherwise
      visits it and pushes its new links. */
  ghost function CrawlFrom(web: Web, baseUrl: string, universe: set<string>, stack: seq<string>, visited: set<string>): seq<string>
    requires Covers(web, baseUrl, universe) && Bounded(universe, stack, visited)
    decreases |universe - visited|, |stack|
  {
    if stack == [] then []
    else
      var current := stack[|stack| - 1];
      var rest := stack[..|stack| - 1];
      NextBounded(web, baseUrl, universe, stack, visited);
      if current in visited then CrawlFrom(web, baseUrl, universe, rest, visited)
      else
        assert current in stack;
        VisitShrinks(universe, visited, current);
        [current] + CrawlFrom(web, baseUrl, universe, rest + Pushed(web, baseUrl, current, visited + {current}), visited + {current})
  }

  /** The urls `crawlEntireSite(projectId, baseUrl, seen)` visits, in order. */
  ghost function CrawlOrder(web: Web, baseUrl: string): seq<string> {
    CrawlFrom(web, baseUrl, Universe(web, baseUrl), [baseUrl], {})
  }

  /** The rows the visited pages offer, page after page. */
  function Harvests(projectId: nat, order: seq<string>, web: Web): (rows: seq<Photo>)
    ensures OfProject(rows, projectId)
    decreases |order|
  {
    if order == [] then []
    else Harvests(projectId, order[..|order| - 1], web) + Harvest(projectId, order[|order| - 1], web)
  }

  /** One step of the crawl order: a visited url is passed over, a new one
      is visited and its new links pushed. */
  lemma CrawlFromStep(web: Web, baseUrl: string, universe: set<string>, stack: seq<string>, visited: set<string>)
    requires Covers(web, baseUrl, universe) && Bounded(universe, stack, visited) && stack != []
    ensures var current := stack[|stack| - 1];
      var rest := stack[..|stack| - 1];
      var next := rest + Pushed(web, baseUrl, current, visited + {current});
      Bounded(universe, rest, visited) &&
      (current in visited ==> CrawlFrom(web, baseUrl, universe, stack, visited) == CrawlFrom(web, baseUrl, universe, rest, visited)) &&
      (current !in visited ==>
        Bounded(universe, next, visited + {current}) &&
        |universe - (visited + {current})| < |universe - visited| &&
        CrawlFrom(web, baseUrl, universe, stack, visited) == [current] + CrawlFrom(web, baseUrl, universe, next, visited + {current}))
  {
    var current := stack[|stack| - 1];
    NextBounded(web, baseUrl, universe, stack, visited);
    if current !in visited {
      assert current in stack;
      VisitShrinks(universe, visited, current);
    }
  }

  /** The crawl order after passing over a visited url continues from the
      rest of the worklist. */
  lemma OrderSkip(web: Web, baseUrl: string, universe: set<string>, stack: seq<string>, visited: set<string>, done: seq<string>,
                  order: seq<string>)
    requires Covers(web, baseUrl, universe) && Bounded(universe, stack, visited)
    requires stack != [] && stack[|stack| - 1] in visited
    requires order == done + CrawlFrom(web, baseUrl, universe, stack, visited)
    ensures Bounded(universe, stack[..|stack| - 1], visited) &&
      order == done + CrawlFrom(web, baseUrl, universe, stack[..|stack| - 1], visited)
  {
    CrawlFromStep(web, baseUrl, universe, stack, visited);
  }

  /** One step of the crawl loop in terms of the crawl order. */
  lemma OrderNext(web: Web, baseUrl: string, universe: set<string>, stack: seq<string>, visited: set<string>, done: seq<string>,
                  order: seq<string>)
    requires Covers(web, baseUrl, universe) && Bounded(universe, stack, visited)
    requires stack != []
    requires order == done + CrawlFrom(web, baseUrl, universe, stack, visited)
    ensures var current := stack[|stack| - 1];
      var rest := stack[..|stack| - 1];
      var next := rest + Pushed(web, baseUrl, current, visited + {current});
      Bounded(universe, rest, visited) &&
      (current in visited ==> order == done + CrawlFrom(web, baseUrl, universe, rest, visited)) &&
      (current !in visited ==>
        Bounded(universe, next, visited + {current}) &&
        |universe - (visited + {current})| < |universe - visited| &&
        order == (done + [current]) + CrawlFrom(web, baseUrl, universe, next, visited + {current}))
  {
    if stack[|stack| - 1] in visited {
      OrderSkip(web, baseUrl, universe, stack, visited, done, order);
    } else {
      OrderStep(web, baseUrl, universe, stack, visited, done, order);
    }
  }

  /** The crawl order after visiting a new url continues from its new state. */
  lemma OrderStep(web: Web, baseUrl: string, universe: set<string>, stack: seq<string>, visited: set<string>, done: seq<string>,
                  order: seq<string>)
    requires Covers(web, baseUrl, universe) && Bounded(universe, stack, visited)
    requires stack != [] && stack[|stack| - 1] !in visited
    requires order == done + CrawlFrom(web, baseUrl, universe, stack, visited)
    ensures var current := stack[|stack| - 1];
      var next := stack[..|stack| - 1] + Pushed(web, baseUrl, current, visited + {current});
      Bounded(universe, next, visited + {current}) &&
      |universe - (visited + {current})| < |universe - visited| &&
      order == (done + [current]) + CrawlFrom(web, baseUrl, universe, next, visited + {current})
  {
    var current := stack[|stack| - 1];
    var next := stack[..|stack| - 1] + Pushed(web, baseUrl, current, visited + {current});
    CrawlFromStep(web, baseUrl, universe, stack, visited);
    assert order == (done + [current]) + CrawlFrom(web, baseUrl, universe, next, visited + {current});
  }

  /** Scraping one more visited page continues the dedup step over the rows
      of the pages visited before it. */
  lemma HarvestsStep(start: Run, projectId: nat, done: seq<string>, current: string, web: Web, run: Run)
    requires run == Insertion(start, Harvests(projectId, done, web), false)
    ensures Insertion(run, Harvest(projectId, current, web), false) ==
      Insertion(start, Harvests(projectId, done + [current], web), false)
  {
    assert (done + [current])[..|done|] == done;
    InsertionAppend(start, Harvests(projectId, done, web), Harvest(projectId, current, web), false);
  }

  /** The `try` block of one visit: fetch the page, scrape it, push its new
      links; when the page does not load, nothing happens. */
  method VisitPage(store: Store, projectId: nat, baseUrl: string, current: string, visited: set<string>, web: Web,
                   toVisit: seq<string>, seen: set<string>, total: nat)
    returns (toVisit': seq<string>, seen': set<string>, total': nat)
    modifies store
    ensures Run(store.photos, seen', total') ==
      Insertion(Run(old(store.photos), seen, total), Harvest(projectId, current, web), false)
    ensures toVisit' == toVisit + Pushed(web, baseUrl, current, visited)
    ensures unchanged(store`projects) && store.nextProjectId == old(store.nextProjectId)
  {
    if current !in web.pages {
      return toVisit, seen, total;
    }
    var added, s := ScrapeSinglePage(store, projectId, current, seen, web);
    InsertionShift(old(store.photos), seen, total, Harvest(projectId, current, web), false);
    total', seen' := total + added, s;
    toVisit' := PushLinks(web.pages[current].hrefs, current, baseUrl, visited, web, toVisit);
  }

  /** One visit of the crawl loop, in terms of the rows the pages visited so
      far offer. */
  method VisitNext(store: Store, projectId: nat, baseUrl: string, current: string, visited: set<string>, web: Web,
                   toVisit: seq<string>, seen: set<string>, total: nat, ghost start: Run, ghost done: seq<string>)
    returns (toVisit': seq<string>, seen': set<string>, total': nat)
    requires Run(store.photos, seen, total) == Insertion(start, Harvests(projectId, done, web), false)
    modifies store
    ensures Run(store.photos, seen', total') == Insertion(start, Harvests(projectId, done + [current], web), false)
    ensures toVisit' == toVisit + Pushed(web, baseUrl, current, visited)
    ensures unchanged(store`projects) && store.nextProjectId == old(store.nextProjectId)
  {
    HarvestsStep(start, projectId, done, current, web, Run(store.photos, seen, total));
    toVisit', seen', total' := VisitPage(store, projectId, baseUrl, current, visited, web, toVisit, seen, total);
  }

  /** `crawlEntireSite(projectId, baseUrl, seen)`: visits the urls of
      `CrawlOrder`, scraping each page that loads into the store, and answers
      the rows created and the grown `seen` set. */
  method CrawlEntireSite(store: Store, projectId: nat, baseUrl: string, seen: set<string>, web: Web)
    returns (totalAdded: nat, seen': set<string>)
    modifies store
    ensures Run(store.photos, seen', totalAdded) ==
      Insertion(Run(old(store.photos), seen, 0), Harvests(projectId, CrawlOrder(web, baseUrl), web), false)
    ensures unchanged(store`projects) && store.nextProjectId == old(store.nextProjectId)
  {
    var visited: set<string> := {};
    var toVisit := [baseUrl];
    totalAdded, seen' := 0, seen;
    ghost var done: seq<string> := [];
    ghost var universe := Universe(web, baseUrl);
    ghost var order := CrawlOrder(web, baseUrl);
    ghost var start := Run(store.photos, seen, 0);
    while toVisit != []
      invariant Bounded(universe, toVisit, visited)
      invariant order == done + CrawlFrom(web, baseUrl, universe, toVisit, visited)
      invariant Run(store.photos, seen', totalAdded) == Insertion(start, Harvests(projectId, done, web), false)
      invariant unchanged(store`projects) && store.nextProjectId == old(store.nextProjectId)
      decreases |universe - visited|, |toVisit|
    {
      OrderNext(web, baseUrl, universe, toVisit, visited, done, order);
      var current := toVisit[|toVisit| - 1];
      toVisit := toVisit[..|toVisit| - 1];
      if current in visited {
        continue;
      }
      visited := visited + {current};
      toVisit, seen', totalAdded := VisitNext(store, projectId, baseUrl, current, visited, web, toVisit, seen', totalAdded, start, done);
      done := done + [current];
    }
    assert CrawlFrom(web, baseUrl, universe, toVisit, visited) == [];
    assert order == done + [];
    assert done == CrawlOrder(web, baseUrl);
  }

  // ---------------------------------------------------------------------
  // What the crawl order satisfies

  predicate Distinct(s: seq<string>) {
    forall i, j :: 0 <= i < j < |s| ==> s[i] != s[j]
  }

  /** Every url of `order` after the first is linked from an earlier one. */
  ghost predicate LinkedInOrder(web: Web, baseUrl: string, order: seq<string>) {
    forall k :: 0 < k < |order| ==> exists m :: 0 <= m < k && order[k] in Links(web, baseUrl, order[m])
  }

  /** Every link of a url in `order` is in `order`. */
  ghost predicate Closed(web: Web, baseUrl: string, order: seq<string>) {
    forall u, t :: u in order && t in Links(web, baseUrl, u) ==> t in order
  }

  ghost predicate LinkedFrom(web: Web, baseUrl: string, done: seq<string>, t: string) {
    exists m :: 0 <= m < |done| && t in Links(web, baseUrl, done[m])
  }

  /** The loop's invariant: the visited set holds the urls visited so far,
      each once; every link of a visited url is visited or waiting on the
      worklist; and every url visited or waiting, other than the base url,
      is linked from a visited one. */
  ghost predicate CrawlState(web: Web, baseUrl: string, universe: set<string>, stack: seq<string>, visited: set<string>, done: seq<string>) {
    Covers(web, baseUrl, universe) && Bounded(universe, stack, visited) &&
    (forall u :: u in visited <==> u in done) &&
    Distinct(done) &&
    (forall u, t :: u in done && t in Links(web, baseUrl, u) ==> t in visited || t in stack) &&
    LinkedInOrder(web, baseUrl, done) &&
    (done == [] ==> stack == [baseUrl]) &&
    (done != [] ==> done[0] == baseUrl && forall t :: t in stack ==> LinkedFrom(web, baseUrl, done, t))
  }

  lemma SkipKeeps(web: Web, baseUrl: string, universe: set<string>, stack: seq<string>, visited: set<string>, done: seq<string>)
    requires CrawlState(web, baseUrl, universe, stack, visited, done) && stack != [] && stack[|stack| - 1] in visited
    ensures CrawlState(web, baseUrl, universe, stack[..|stack| - 1], visited, done)
  {
    var last := stack[|stack| - 1];
    var rest := stack[..|stack| - 1];
    assert stack == rest + [last];
    assert last in done;
    NextBounded(web, baseUrl, universe, stack, visited);
    forall t | t in rest ensures LinkedFrom(web, baseUrl, done, t) {
      assert t in stack;
    }
    forall u, t | u in done && t in Links(web, baseUrl, u) ensures t in visited || t in rest {
      if t !in visited {
        assert t in stack && t != last;
      }
    }
  }

  lemma VisitKeepsLinks(web: Web, baseUrl: string, universe: set<string>, stack: seq<string>, visited: set<string>, done: seq<string>)
    requires CrawlState(web, baseUrl, universe, stack, visited, done) && stack != [] && stack[|stack| - 1] !in visited
    ensures var current := stack[|stack| - 1];
      var next := stack[..|stack| - 1] + Pushed(web, baseUrl, current, visited + {current});
      forall u, t :: u in done + [current] && t in Links(web, baseUrl, u) ==> t in visited + {current} || t in next
  {
    var current := stack[|stack| - 1];
    var rest := stack[..|stack| - 1];
    var pushed := Pushed(web, baseUrl, current, visited + {current});
    var next := rest + pushed;
    assert stack == rest + [current];
    PushedMeaning(web, baseUrl, current, visited + {current});
    forall u, t | u in done + [current] && t in Links(web, baseUrl, u)
      ensures t in visited + {current} || t in next
    {
      if u == current {
        if t !in visited + {current} {
          assert t in pushed;
        }
      } else {
        assert u in done;
        if t in rest {
        } else if t !in visited {
          assert t == current;
        }
      }
    }
  }

  lemma VisitKeepsOrder(web: Web, baseUrl: string, universe: set<string>, stack: seq<string>, visited: set<string>, done: seq<string>)
    requires CrawlState(web, baseUrl, universe, stack, visited, done) && stack != [] && stack[|stack| - 1] !in visited
    ensures var current := stack[|stack| - 1];
      Distinct(done + [current]) && LinkedInOrder(web, baseUrl, done + [current]) && (done + [current])[0] == baseUrl
  {
    var current := stack[|stack| - 1];
    var done' := done + [current];
    assert current in stack && current !in done;
    forall i, j | 0 <= i < j < |done'| ensures done'[i] != done'[j] {
      assert done'[i] == done[i];
      if j == |done| {
        assert done[i] in done;
      } else {
        assert done'[j] == done[j];
      }
    }
    if done == [] {
      assert stack == [baseUrl];
    } else {
      assert done'[0] == done[0];
    }
    forall k | 0 < k < |done'| ensures exists m :: 0 <= m < k && done'[k] in Links(web, baseUrl, done'[m]) {
      if k < |done| {
        var m :| 0 <= m < k && done[k] in Links(web, baseUrl, done[m]);
        assert done'[m] == done[m];
      } else {
        assert LinkedFrom(web, baseUrl, done, current);
        var m :| 0 <= m < |done| && current in Links(web, baseUrl, done[m]);
        assert done'[m] == done[m];
      }
    }
  }

  lemma VisitKeepsFrontier(web: Web, baseUrl: string, universe: set<string>, stack: seq<string>, visited: set<string>, done: seq<string>)
    requires CrawlState(web, baseUrl, universe, stack, visited, done) && stack != [] && stack[|stack| - 1] !in visited
    ensures var current := stack[|stack| - 1];
      var next := stack[..|stack| - 1] + Pushed(web, baseUrl, current, visited + {current});
      forall t :: t in next ==> LinkedFrom(web, baseUrl, done + [current], t)
  {
    var current := stack[|stack| - 1];
    var rest := stack[..|stack| - 1];
    var pushed := Pushed(web, baseUrl, current, visited + {current});
    var done' := done + [current];
    assert stack == rest + [current];
    PushedMeaning(web, baseUrl, current, visited + {current});
    forall t | t in rest + pushed ensures LinkedFrom(web, baseUrl, done', t) {
      if t in rest {
        if done != [] {
          assert LinkedFrom(web, baseUrl, done, t);
          var m :| 0 <= m < |done| && t in Links(web, baseUrl, done[m]);
          assert done'[m] == done[m];
        }
      } else {
        assert t in pushed;
        assert done'[|done|] == current;
      }
    }
  }

  lemma VisitKeeps(web: Web, baseUrl: string, universe: set<string>, stack: seq<string>, visited: set<string>, done: seq<string>)
    requires CrawlState(web, baseUrl, universe, stack, visited, done) && stack != [] && stack[|stack| - 1] !in visited
    ensures var current := stack[|stack| - 1];
      CrawlState(web, baseUrl, universe, stack[..|stack| - 1] + Pushed(web, baseUrl, current, visited + {current}),
                 visited + {current}, done + [current])
  {
    NextBounded(web, baseUrl, universe, stack, visited);
    VisitKeepsLinks(web, baseUrl, universe, stack, visited, done);
    VisitKeepsOrder(web, baseUrl, universe, stack, visited, done);
    VisitKeepsFrontier(web, baseUrl, universe, stack, visited, done);
  }

  /** What the whole crawl order satisfies. */
  ghost predicate WellOrdered(web: Web, baseUrl: string, order: seq<string>) {
    order != [] && order[0] == baseUrl && Distinct(order) && Closed(web, baseUrl, order) && LinkedInOrder(web, baseUrl, order)
  }

  lemma {:induction false} CrawlFromKeeps(web: Web, baseUrl: string, universe: set<string>, stack: seq<string>, visited: set<string>, done: seq<string>,
                                          order: seq<string>)
    requires CrawlState(web, baseUrl, universe, stack, visited, done)
    requires order == done + CrawlFrom(web, baseUrl, universe, stack, visited)
    ensures WellOrdered(web, baseUrl, order)
    decreases |universe - visited|, |stack|, 1
  {
    if stack == [] {
      assert order == done;
    } else if stack[|stack| - 1] in visited {
      SkipCase(web, baseUrl, universe, stack, visited, done, order);
    } else {
      VisitCase(web, baseUrl, universe, stack, visited, done, order);
    }
  }

  lemma {:induction false} SkipCase(web: Web, baseUrl: string, universe: set<string>, stack: seq<string>, visited: set<string>, done: seq<string>,
                                    order: seq<string>)
    requires CrawlState(web, baseUrl, universe, stack, visited, done) && stack != [] && stack[|stack| - 1] in visited
    requires order == done + CrawlFrom(web, baseUrl, universe, stack, visited)
    ensures WellOrdered(web, baseUrl, order)
    decreases |universe - visited|, |stack|, 0
  {
    OrderSkip(web, baseUrl, universe, stack, visited, done, order);
    SkipKeeps(web, baseUrl, universe, stack, visited, done);
    CrawlFromKeeps(web, baseUrl, universe, stack[..|stack| - 1], visited, done, order);
  }

  lemma {:induction false} VisitCase(web: Web, baseUrl: string, universe: set<string>, stack: seq<string>, visited: set<string>, done: seq<string>,
                                     order: seq<string>)
    requires CrawlState(web, baseUrl, universe, stack, visited, done) && stack != [] && stack[|stack| - 1] !in visited
    requires order == done + CrawlFrom(web, baseUrl, universe, stack, visited)
    ensures WellOrdered(web, baseUrl, order)
    decreases |universe - visited|, |stack|, 0
  {
    var current := stack[|stack| - 1];
    var next := stack[..|stack| - 1] + Pushed(web, baseUrl, current, visited + {current});
    VisitKeeps(web, baseUrl, universe, stack, visited, done);
    OrderStep(web, baseUrl, universe, stack, visited, done, order);
    CrawlFromKeeps(web, baseUrl, universe, next, visited + {current}, done + [current], order);
  }

  lemma InitialState(web: Web, baseUrl: string)
    ensures CrawlState(web, baseUrl, Universe(web, baseUrl), [baseUrl], {}, [])
  {
  }

  /** A url linked, directly or through earlier ones, from the base url starts
      with the base url. */
  lemma LinkedStartsWithBase(web: Web, baseUrl: string, order: seq<string>)
    requires order != [] && order[0] == baseUrl && LinkedInOrder(web, baseUrl, order)
    ensures forall u :: u in order ==> StartsWith(u, baseUrl)
  {
    forall u | u in order ensures StartsWith(u, baseUrl) {
      var k :| 0 <= k < |order| && order[k] == u;
      if k > 0 {
        var m :| 0 <= m < k && u in Links(web, baseUrl, order[m]);
        LinksMeaning(web, baseUrl, order[m]);
      } else {
        assert u[..|baseUrl|] == baseUrl;
      }
    }
  }

  /** The crawl visits the base url first, visits no url twice (so no page is
      fetched or scraped twice), visits every link of each page it visits,
      and visits nothing else: each url after the first is linked from a page
      visited before it, so every visited url starts with the base url. */
  lemma CrawlOrderMeaning(web: Web, baseUrl: string)
    ensures var order := CrawlOrder(web, baseUrl);
      WellOrdered(web, baseUrl, order) && forall u :: u in order ==> StartsWith(u, baseUrl)
  {
    var order := CrawlOrder(web, baseUrl);
    var universe := Universe(web, baseUrl);
    InitialState(web, baseUrl);
    assert [] + CrawlFrom(web, baseUrl, universe, [baseUrl], {}) == order;
    CrawlFromKeeps(web, baseUrl, universe, [baseUrl], {}, [], order);
    LinkedStartsWithBase(web, baseUrl, order);
  }
}
