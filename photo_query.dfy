/** The photo listing handlers: the filter they build from the query string
    (the same code in the paginated list, the "all ids" list and the
    distribution endpoint), the predicate that filter stands for, and the
    pagination of the list endpoint. */
module PhotoQuery {
  import opened Wrappers
  import opened Catalog
  import Usage

  /** A query-string parameter: absent, given once, or repeated (an array). */
  datatype Param = Absent | One(value: string) | Many(values: seq<string>)

  /** The values a parameter constrains its field to, or `None` when the
      parameter is absent, the empty string or an empty array. */
  function Values(p: Param): (vs: Option<seq<string>>)
    ensures vs.Some? ==> vs.value != []
    ensures vs == None <==> p == Absent || p == One("") || p == Many([])
    ensures p.One? && p.value != "" ==> vs == Some([p.value])
    ensures p.Many? && p.values != [] ==> vs == Some(p.values)
  {
    match p
    case Absent => None
    case One(s) => if s == "" then None else Some([s])
    case Many(xs) => if xs == [] then None else Some(xs)
  }

  datatype UsageCondition = Exactly(n: nat) | AtLeast(n: nat)

  /** The `switch` on one usage token: '0' to '3' ask for that exact count,
      '4+' for four or more; any other token yields no condition. */
  function UsageToken(t: string): Option<UsageCondition> {
    if t == "0" then Some(Exactly(0))
    else if t == "1" then Some(Exactly(1))
    else if t == "2" then Some(Exactly(2))
    else if t == "3" then Some(Exactly(3))
    else if t == "4+" then Some(AtLeast(4))
    else None
  }

  /** The conditions pushed for the tokens, in order. */
  function UsageConditions(tokens: seq<string>): (cs: seq<UsageCondition>)
    ensures |cs| <= |tokens|
  {
    if tokens == [] then []
    else
      (match UsageToken(tokens[0]) case Some(c) => [c] case None => []) + UsageConditions(tokens[1..])
  }

  datatype Query = Query(
    language: Param, locale: Param, textAmount: Param, imageType: Param, usage: Param)

  /** The Mongo filter the handlers build: `None` in a field means the key is
      not set. */
  datatype Filter = Filter(
    projectId: nat,
    language: Option<seq<string>>,
    locale: Option<seq<string>>,
    textAmount: Option<seq<string>>,
    imageType: Option<seq<string>>,
    usageOr: Option<seq<UsageCondition>>)

  function BuildFilter(projectId: nat, q: Query): (f: Filter)
    ensures f.usageOr.Some? ==> f.usageOr.value != []
  {
    var usage :=
      match Values(q.usage)
      case None => None
      case Some(tokens) =>
        var cs := UsageConditions(tokens);
        if cs == [] then None else Some(cs);
    Filter(projectId, Values(q.language), Values(q.locale), Values(q.textAmount), Values(q.imageType), usage)
  }

  /** `{ field: { $in: values } }`, or no constraint. */
  predicate InValues(field: Option<string>, values: Option<seq<string>>) {
    values == None || (field.Some? && field.value in values.value)
  }

  predicate Satisfies(usageCount: int, c: UsageCondition) {
    match c
    case Exactly(n) => usageCount == n
    case AtLeast(n) => usageCount >= n
  }

  /** Some condition of an `$or` list holds. */
  predicate AnySatisfied(usageCount: int, cs: seq<UsageCondition>) {
    cs != [] && (Satisfies(usageCount, cs[0]) || AnySatisfied(usageCount, cs[1..]))
  }

  predicate UsageMatches(usageCount: int, usageOr: Option<seq<UsageCondition>>) {
    usageOr == None || AnySatisfied(usageCount, usageOr.value)
  }

  /** What `Photo.find(filter)` selects. */
  predicate Matches(f: Filter, p: Photo) {
    p.projectId == f.projectId &&
    InValues(p.language, f.language) && InValues(p.locale, f.locale) &&
    InValues(p.textAmount, f.textAmount) && InValues(p.imageType, f.imageType) &&
    UsageMatches(p.usageCount, f.usageOr)
  }

  /** A token names a usage bucket that `usageCount` falls in. */
  predicate TokenAccepts(t: string, usageCount: int) {
    (t in ["0", "1", "2", "3"] && usageCount == (t[0] as int) - ('0' as int)) ||
    (t == "4+" && usageCount >= 4)
  }

  predicate AnyAccepts(tokens: seq<string>, usageCount: int) {
    tokens != [] && (TokenAccepts(tokens[0], usageCount) || AnyAccepts(tokens[1..], usageCount))
  }

  predicate AnyKnownToken(tokens: seq<string>) {
    tokens != [] && (UsageToken(tokens[0]).Some? || AnyKnownToken(tokens[1..]))
  }

  lemma UsageConditionsCons(tokens: seq<string>)
    requires tokens != []
    ensures UsageToken(tokens[0]).None? ==> UsageConditions(tokens) == UsageConditions(tokens[1..])
    ensures UsageToken(tokens[0]).Some? ==>
      UsageConditions(tokens) != [] &&
      UsageConditions(tokens)[0] == UsageToken(tokens[0]).value &&
      UsageConditions(tokens)[1..] == UsageConditions(tokens[1..])
  {
  }

  /** No condition is pushed exactly when no token is a known one. */
  lemma {:induction false} UsageConditionsEmpty(tokens: seq<string>)
    ensures UsageConditions(tokens) == [] <==> !AnyKnownToken(tokens)
    decreases |tokens|
  {
    if tokens != [] {
      UsageConditionsCons(tokens);
      UsageConditionsEmpty(tokens[1..]);
    }
  }

  /** The pushed conditions hold for a count exactly when a token names its bucket. */
  lemma {:induction false} UsageConditionsSatisfied(tokens: seq<string>, usageCount: int)
    ensures AnySatisfied(usageCount, UsageConditions(tokens)) <==> AnyAccepts(tokens, usageCount)
    decreases |tokens|
  {
    if tokens != [] {
      UsageConditionsCons(tokens);
      UsageConditionsSatisfied(tokens[1..], usageCount);
    }
  }

  /** The usage filter keeps a photo exactly when the parameter does not
      constrain, when none of its tokens is one of '0', '1', '2', '3', '4+'
      (then `$or` is not set), or when some token names the photo's bucket. */
  lemma UsageFilterMeaning(projectId: nat, q: Query, usageCount: int)
    ensures UsageMatches(usageCount, BuildFilter(projectId, q).usageOr) <==>
      Values(q.usage) == None || !AnyKnownToken(Values(q.usage).value) ||
      AnyAccepts(Values(q.usage).value, usageCount)
  {
    if Values(q.usage).Some? {
      UsageConditionsEmpty(Values(q.usage).value);
      UsageConditionsSatisfied(Values(q.usage).value, usageCount);
    }
  }

  /** A query whose parameters are all absent or empty selects the whole project. */
  lemma EmptyQuerySelectsProject(projectId: nat, q: Query, p: Photo)
    requires q.language in {Absent, One(""), Many([])} && q.locale in {Absent, One(""), Many([])}
    requires q.textAmount in {Absent, One(""), Many([])} && q.imageType in {Absent, One(""), Many([])}
    requires q.usage in {Absent, One(""), Many([])}
    ensures Matches(BuildFilter(projectId, q), p) <==> p.projectId == projectId
  {
  }

  // ---------------------------------------------------------------------
  // Listing and pagination.

  /** Positions of the photos matching `f`, newest first (`sort({ _id: -1 })`). */
  function MatchingNewestFirst(photos: seq<Photo>, f: Filter, upto: nat): (r: seq<nat>)
    requires upto <= |photos|
    ensures forall i :: i in r <==> 0 <= i < upto && Matches(f, photos[i])
    ensures forall a, b :: 0 <= a < b < |r| ==> r[a] > r[b]
    ensures forall k :: 0 <= k < |r| ==> r[k] < upto
  {
    if upto == 0 then []
    else (if Matches(f, photos[upto - 1]) then [upto - 1] else []) + MatchingNewestFirst(photos, f, upto - 1)
  }

  function CountProject(photos: seq<Photo>, projectId: nat): nat {
    if photos == [] then 0
    else CountProject(photos[..|photos| - 1], projectId) + (if photos[|photos| - 1].projectId == projectId then 1 else 0)
  }

  /** The skip is negative exactly when the page and the limit pull in
      opposite directions. */
  lemma SkipSign(pg: int, lim: int)
    ensures (pg - 1) * lim < 0 <==> (pg < 1 && lim > 0) || (pg > 1 && lim < 0)
  {
    var d := pg - 1;
    if d < 0 && lim > 0 {
      assert d * lim <= -lim;
    } else if d > 0 && lim < 0 {
      assert d * lim <= lim;
    } else if d >= 0 && lim >= 0 {
      assert d * lim >= 0;
    } else {
      assert d * lim >= 0;
    }
  }

  /** The skip of a page with a positive limit is a natural number, and the
      next page starts `limit` further on. */
  lemma PageArithmetic(page: int, limit: int)
    requires page >= 1 && limit > 0
    ensures (page - 1) * limit >= 0 && page * limit == (page - 1) * limit + limit
  {
    var d := page - 1;
    assert d * limit >= 0;
    assert page * limit == d * limit + limit;
  }

  datatype Listing = Listing(ids: seq<nat>, total: nat, filteredCount: nat, page: int, hasMore: bool)

  /** `GET /api/projects/:id/photos`: skip `(page - 1) * limit` matching
      photos, newest first, and return up to `limit` of them (Mongo's limit:
      0 is none, a negative one its absolute value); a negative skip is
      refused by the database and answered with 500. `hasMore` says the page
      came back exactly `limit` long. Absent `page` and `limit` are 1 and 100. */
  function ListPhotos(photos: seq<Photo>, projectId: nat, q: Query, page: Option<int>, limit: Option<int>)
    : (r: Result<Listing>)
    ensures r.Err? ==> r.status == ServerError
    ensures var pg := if page.Some? then page.value else 1;
            var lim := if limit.Some? then limit.value else 100;
            r.Err? <==> (pg < 1 && lim > 0) || (pg > 1 && lim < 0)
  {
    var pg := if page.Some? then page.value else 1;
    var lim := if limit.Some? then limit.value else 100;
    var skip := (pg - 1) * lim;
    SkipSign(pg, lim);
    if skip < 0 then Err(ServerError)
    else
      var matching := MatchingNewestFirst(photos, BuildFilter(projectId, q), |photos|);
      var after := if skip <= |matching| then matching[skip..] else [];
      var ids := after[..Usage.EffectiveLimit(lim, |after|)];
      Ok(Listing(ids, CountProject(photos, projectId), |matching|, pg, |ids| == lim))
  }

  /** `GET /api/projects/:id/photos/ids`: every matching photo. `find` without
      a sort promises no order; this model lists them in store order, and only
      which ids are listed is the source's promise. */
  function MatchingIds(photos: seq<Photo>, projectId: nat, q: Query): (ids: seq<nat>)
    ensures forall i :: i in ids <==> 0 <= i < |photos| && Matches(BuildFilter(projectId, q), photos[i])
    ensures forall a, b :: 0 <= a < b < |ids| ==> ids[a] < ids[b]
  {
    Reverse(MatchingNewestFirst(photos, BuildFilter(projectId, q), |photos|))
  }

  function Reverse(s: seq<nat>): (r: seq<nat>)
    ensures |r| == |s|
    ensures forall k :: 0 <= k < |s| ==> r[k] == s[|s| - 1 - k]
    ensures forall x :: x in r <==> x in s
  {
    if s == [] then [] else Reverse(s[1..]) + [s[0]]
  }

  /** With a positive limit, the page holds the matching photos ranked
      `(page-1)*limit` up to `page*limit`, newest first (all of them that
      exist, so a page is short only at the end), every one of them
      matches, and `hasMore` holds exactly when at least `page*limit`
      photos match, so it is never false while later pages are non-empty. */
  lemma ListingIsPage(photos: seq<Photo>, projectId: nat, q: Query, page: int, limit: int)
    requires page >= 1 && limit > 0
    ensures var r := ListPhotos(photos, projectId, q, Some(page), Some(limit));
      var matching := MatchingNewestFirst(photos, BuildFilter(projectId, q), |photos|);
      var skip := (page - 1) * limit;
      r.Ok? &&
      (forall k :: 0 <= k < |r.value.ids| ==>
         r.value.ids[k] == matching[skip + k] && Matches(BuildFilter(projectId, q), photos[r.value.ids[k]])) &&
      |r.value.ids| <= limit &&
      |r.value.ids| == (if |matching| <= skip then 0 else Usage.Min(limit, |matching| - skip)) &&
      (r.value.hasMore <==> |matching| >= page * limit) &&
      r.value.filteredCount == |matching|
  {
    var matching := MatchingNewestFirst(photos, BuildFilter(projectId, q), |photos|);
    var skip := (page - 1) * limit;
    PageArithmetic(page, limit);
    SkipSign(page, limit);
    var after := if skip <= |matching| then matching[skip..] else [];
    var ids := after[..Usage.EffectiveLimit(limit, |after|)];
    PageSlice(matching, skip, limit);
    var r := ListPhotos(photos, projectId, q, Some(page), Some(limit));
    assert r == Ok(Listing(ids, CountProject(photos, projectId), |matching|, page, |ids| == limit));
    forall k | 0 <= k < |ids|
      ensures Matches(BuildFilter(projectId, q), photos[ids[k]])
    {
      assert matching[skip + k] in matching;
    }
  }

  /** The page cut out of the matches at `skip` with a positive limit: the
      next `limit` of them, or as many as remain. */
  lemma PageSlice(matching: seq<nat>, skip: nat, limit: int)
    requires limit > 0
    ensures var after := if skip <= |matching| then matching[skip..] else [];
      var ids := after[..Usage.EffectiveLimit(limit, |after|)];
      (forall k :: 0 <= k < |ids| ==> skip + k < |matching| && ids[k] == matching[skip + k]) &&
      |ids| == (if |matching| <= skip then 0 else Usage.Min(limit, |matching| - skip)) &&
      (|ids| == limit <==> |matching| >= skip + limit)
  {
  }

  /** A negative limit on the first page (or before it) takes its absolute
      value: the page holds the first `-limit` matches from the skip on, and
      `hasMore` is never set, since a page's length is never negative. */
  lemma NegativeLimitListsAbs(photos: seq<Photo>, projectId: nat, q: Query, page: int, limit: int)
    requires page <= 1 && limit < 0
    ensures var r := ListPhotos(photos, projectId, q, Some(page), Some(limit));
      var matching := MatchingNewestFirst(photos, BuildFilter(projectId, q), |photos|);
      var skip := (page - 1) * limit;
      r.Ok? && !r.value.hasMore &&
      (skip <= |matching| ==> r.value.ids == matching[skip..][..Usage.Min(-limit, |matching| - skip)]) &&
      (skip > |matching| ==> r.value.ids == [])
  {
    SkipSign(page, limit);
  }

  /** A zero limit drops the limit and returns every match after the skip,
      so `hasMore` is true only when that rest is empty. */
  lemma ZeroLimitListsAll(photos: seq<Photo>, projectId: nat, q: Query, page: int)
    ensures var r := ListPhotos(photos, projectId, q, Some(page), Some(0));
      var matching := MatchingNewestFirst(photos, BuildFilter(projectId, q), |photos|);
      r.Ok? && r.value.ids == matching && (r.value.hasMore <==> matching == [])
  {
    var matching := MatchingNewestFirst(photos, BuildFilter(projectId, q), |photos|);
    assert (page - 1) * 0 == 0;
    assert matching[0..] == matching;
    assert matching[..Usage.EffectiveLimit(0, |matching|)] == matching;
  }
}
