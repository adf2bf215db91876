/** `POST /api/projects/:id/photos/migrate-pixabay` and
    `GET /api/projects/:id/photos/migration-status`: Pixabay photos stored
    with a temporary url get the permanent page url, derived from the stored
    Pixabay id or from a digit run in the old url. */
module Migration {
  import opened Wrappers
  import opened Strings
  import opened Catalog

  const BATCH_SIZE: nat := 100
  const PHOTO_PAGES := "pixabay.com/photos/"
  const PERMANENT_PREFIX := "https://" + PHOTO_PAGES + "photo-"

  /** The `$or` of three url regular expressions: a CDN url, a `get` url, or
      anything that is not a photo page url. */
  predicate NeedsMigration(url: string) {
    Contains(url, "cdn.pixabay.com") || Contains(url, "pixabay.com/get") || !Contains(url, "pixabay.com/photos/")
  }

  predicate IsPixabay(p: Photo, projectId: nat) {
    p.projectId == projectId && p.metadata.source == Some("pixabay")
  }

  /** The migration query: a Pixabay photo of the project whose url needs migration. */
  predicate Selected(p: Photo, projectId: nat) {
    IsPixabay(p, projectId) && NeedsMigration(p.url)
  }

  // ---------------------------------------------------------------------
  // The regular expression `[-_](\d{6,})[-_.]`.

  predicate IsSeparator(c: char) {
    c == '-' || c == '_'
  }

  /** Length of the run of digits starting at `i`. */
  function DigitRun(s: string, i: nat): (n: nat)
    requires i <= |s|
    ensures i + n <= |s|
    ensures AllDigits(s[i..i + n])
    ensures i + n == |s| || !IsDigit(s[i + n])
    decreases |s| - i
  {
    if i < |s| && IsDigit(s[i]) then
      var n := DigitRun(s, i + 1);
      assert forall k :: i < k < i + 1 + n ==> s[k] == s[i + 1..i + 1 + n][k - i - 1];
      1 + n
    else 0
  }

  /** The regular expression matches at `j`: a separator, then at least six
      digits that the greedy `\d{6,}` takes all of, then `-`, `_` or `.`.
      Giving back digits cannot help, since a digit is never one of those. */
  predicate MatchAt(s: string, j: nat) {
    j < |s| && IsSeparator(s[j]) &&
    var n := DigitRun(s, j + 1);
    n >= 6 && j + 1 + n < |s| && (IsSeparator(s[j + 1 + n]) || s[j + 1 + n] == '.')
  }

  /** The leftmost match at or after `j`. */
  function FindMatch(s: string, j: nat): (m: Option<nat>)
    ensures m.Some? ==> j <= m.value && MatchAt(s, m.value) &&
                        forall k :: j <= k < m.value ==> !MatchAt(s, k)
    ensures m.None? ==> forall k :: j <= k ==> !MatchAt(s, k)
    decreases |s| - j
  {
    if j >= |s| then None
    else if MatchAt(s, j) then Some(j)
    else FindMatch(s, j + 1)
  }

  /** `url.match(/[-_](\d{6,})[-_.]/)[1]`: the digits of the leftmost match. */
  function ExtractId(url: string): Option<string> {
    match FindMatch(url, 0)
    case None => None
    case Some(j) => Some(url[j + 1..j + 1 + DigitRun(url, j + 1)])
  }

  /** The id extracted is at least six digits taken from the leftmost match,
      and there is none exactly when the expression matches nowhere. */
  lemma ExtractIdMatches(url: string)
    ensures var id := ExtractId(url);
      (id.None? <==> forall k :: !MatchAt(url, k)) &&
      (id.Some? ==> |id.value| >= 6 && AllDigits(id.value) &&
                    exists j: nat :: MatchAt(url, j) && (forall k: nat :: k < j ==> !MatchAt(url, k)) &&
                                     id.value == url[j + 1..j + 1 + DigitRun(url, j + 1)])
  {
    match FindMatch(url, 0)
    case None =>
    case Some(j) =>
      assert MatchAt(url, j) && forall k: nat :: k < j ==> !MatchAt(url, k);
  }

  function PermanentUrl(id: string): string {
    PERMANENT_PREFIX + id + "/"
  }

  /** The permanent url the handler derives: from a truthy `metadata.pixabayId`
      first, else from the id in a non-empty url, else none (the photo fails). */
  function PermanentFor(p: Photo): Option<string> {
    if p.metadata.pixabayId.Some? && p.metadata.pixabayId.value != 0 then
      Some(PermanentUrl(NatToString(p.metadata.pixabayId.value)))
    else if p.url != "" then
      match ExtractId(p.url)
      case None => None
      case Some(id) => Some(PermanentUrl(id))
    else None
  }

  /** Any url the handler derives is the photo page of a digit string, and a
      photo fails exactly when it has no truthy `pixabayId` and its url matches
      nowhere. */
  lemma PermanentForIsPage(p: Photo)
    ensures PermanentFor(p).Some? ==> exists id :: AllDigits(id) && PermanentFor(p).value == PermanentUrl(id)
    ensures PermanentFor(p).None? <==>
            (p.metadata.pixabayId.None? || p.metadata.pixabayId.value == 0) && forall k :: !MatchAt(p.url, k)
  {
    if !(p.metadata.pixabayId.Some? && p.metadata.pixabayId.value != 0) {
      ExtractIdMatches(p.url);
    }
  }

  /** The `$set` of one queued update: new url, the old url kept in
      `metadata.oldTempUrl`, and the migration time. */
  function Rewritten(p: Photo, url: string, now: string): Photo {
    p.(url := url, metadata := p.metadata.(oldTempUrl := Some(p.url), migratedAt := Some(now)))
  }

  lemma NoDInPermanentUrl(id: string)
    requires AllDigits(id)
    ensures 'd' !in PermanentUrl(id) && 'g' !in PermanentUrl(id)
  {
    var url := PermanentUrl(id);
    forall i | 0 <= i < |url| ensures url[i] != 'd' && url[i] != 'g' {
      if i < |PERMANENT_PREFIX| {
        assert url[i] == PERMANENT_PREFIX[i];
      } else if i < |PERMANENT_PREFIX| + |id| {
        assert url[i] == id[i - |PERMANENT_PREFIX|];
      }
    }
  }

  /** A permanent url never needs migration again. */
  lemma PermanentUrlIsFinal(id: string)
    requires AllDigits(id)
    ensures !NeedsMigration(PermanentUrl(id))
  {
    var url := PermanentUrl(id);
    NoDInPermanentUrl(id);
    MissingCharNotContained(url, "cdn.pixabay.com", 'd');
    MissingCharNotContained(url, "pixabay.com/get", 'g');
    assert OccursAt(url, PHOTO_PAGES, 8) by {
      assert url == "https://" + PHOTO_PAGES + ("photo-" + id + "/");
    }
    ContainsIffOccurs(url, PHOTO_PAGES);
  }

  // ---------------------------------------------------------------------
  // The migration over the whole store.

  /** Positions of the photos the migration query returns, listed in store
      order. `find` promises no order; the rewrite of each photo depends only on
      that photo, and the counts only on which photos are selected. */
  function SelectedIds(photos: seq<Photo>, projectId: nat, upto: nat): (r: seq<nat>)
    requires upto <= |photos|
    ensures forall k :: 0 <= k < |r| ==> r[k] < upto
  {
    if upto == 0 then []
    else SelectedIds(photos, projectId, upto - 1) + (if Selected(photos[upto - 1], projectId) then [upto - 1] else [])
  }

  /** The query returns each selected photo below `upto` once, in store order,
      and nothing else. */
  lemma {:induction false} SelectedIdsMeaning(photos: seq<Photo>, projectId: nat, upto: nat)
    requires upto <= |photos|
    ensures var r := SelectedIds(photos, projectId, upto);
      (forall k :: 0 <= k < |r| ==> Selected(photos[r[k]], projectId)) &&
      (forall i :: 0 <= i < upto && Selected(photos[i], projectId) ==> i in r) &&
      (forall a, b :: 0 <= a < b < |r| ==> r[a] < r[b])
  {
    if upto > 0 {
      SelectedIdsMeaning(photos, projectId, upto - 1);
    }
  }

  /** Positions of the project's Pixabay photos. */
  function PixabayIds(photos: seq<Photo>, projectId: nat, upto: nat): (r: seq<nat>)
    requires upto <= |photos|
  {
    if upto == 0 then []
    else PixabayIds(photos, projectId, upto - 1) + (if IsPixabay(photos[upto - 1], projectId) then [upto - 1] else [])
  }

  /** Positions of the project's Pixabay photos with `metadata.migratedAt` set. */
  function MigratedIds(photos: seq<Photo>, projectId: nat, upto: nat): (r: seq<nat>)
    requires upto <= |photos|
  {
    if upto == 0 then []
    else
      var p := photos[upto - 1];
      MigratedIds(photos, projectId, upto - 1) + (if IsPixabay(p, projectId) && p.metadata.migratedAt.Some? then [upto - 1] else [])
  }

  /** The store after every photo among `ids` that has a permanent url got it. */
  function MigrateAmong(photos: seq<Photo>, ids: seq<nat>, now: string): (r: seq<Photo>)
    ensures |r| == |photos|
  {
    seq(|photos|, k requires 0 <= k < |photos| =>
      if k in ids && PermanentFor(photos[k]).Some? then Rewritten(photos[k], PermanentFor(photos[k]).value, now)
      else photos[k])
  }

  /** The store after the migration of the project. */
  function MigrateAll(photos: seq<Photo>, projectId: nat, now: string): seq<Photo> {
    MigrateAmong(photos, SelectedIds(photos, projectId, |photos|), now)
  }

  /** How many of the photos at `ids` have a permanent url. */
  function CountRewritable(photos: seq<Photo>, ids: seq<nat>): (n: nat)
    requires forall k :: 0 <= k < |ids| ==> ids[k] < |photos|
    ensures n <= |ids|
  {
    if ids == [] then 0
    else CountRewritable(photos, ids[..|ids| - 1]) + (if PermanentFor(photos[ids[|ids| - 1]]).Some? then 1 else 0)
  }

  /** The photos at `ids` that have no permanent url. */
  function Unrewritable(photos: seq<Photo>, ids: seq<nat>): (r: seq<nat>)
    requires forall k :: 0 <= k < |ids| ==> ids[k] < |photos|
    ensures |r| + CountRewritable(photos, ids) == |ids|
  {
    if ids == [] then []
    else Unrewritable(photos, ids[..|ids| - 1]) + (if PermanentFor(photos[ids[|ids| - 1]]).Some? then [] else [ids[|ids| - 1]])
  }

  datatype Update = Update(url: string, oldTempUrl: string)

  /** `Photo.bulkWrite(updates)`: each update is keyed by the photo's `_id`. */
  function BulkWrite(photos: seq<Photo>, updates: map<nat, Update>, now: string): (r: seq<Photo>)
    ensures |r| == |photos|
  {
    seq(|photos|, k requires 0 <= k < |photos| =>
      if k in updates then
        photos[k].(url := updates[k].url,
                   metadata := photos[k].metadata.(oldTempUrl := Some(updates[k].oldTempUrl), migratedAt := Some(now)))
      else photos[k])
  }

  /** An update touches only its own photo, and there only `url`,
      `metadata.oldTempUrl` and `metadata.migratedAt`. */
  lemma BulkWriteSetsOnly(photos: seq<Photo>, updates: map<nat, Update>, now: string, k: nat)
    requires k < |photos|
    ensures var r := BulkWrite(photos, updates, now);
      (k !in updates ==> r[k] == photos[k]) &&
      (k in updates ==>
         r[k].url == updates[k].url && r[k].metadata.oldTempUrl == Some(updates[k].oldTempUrl) &&
         r[k].metadata.migratedAt == Some(now) &&
         r[k].(url := photos[k].url,
               metadata := r[k].metadata.(oldTempUrl := photos[k].metadata.oldTempUrl,
                                          migratedAt := photos[k].metadata.migratedAt)) == photos[k])
  {
  }

  function Min(a: nat, b: nat): nat {
    if a <= b then a else b
  }

  predicate ValidIds(photos: seq<Photo>, ids: seq<nat>) {
    forall k :: 0 <= k < |ids| ==> ids[k] < |photos|
  }

  /** `updates` holds one update for each photo among `ids` with a permanent
      url, and no other. */
  ghost predicate Queued(photos: seq<Photo>, ids: seq<nat>, updates: map<nat, Update>)
    requires ValidIds(photos, ids)
  {
    (forall a :: 0 <= a < |ids| ==> (ids[a] in updates <==> PermanentFor(photos[ids[a]]).Some?)) &&
    (forall k :: k in updates ==> k in ids && k < |photos| && updates[k] == Update(PermanentFor(photos[k]).value, photos[k].url))
  }

  lemma CountRewritableSnoc(photos: seq<Photo>, ids: seq<nat>, k: nat)
    requires ValidIds(photos, ids) && k < |photos|
    ensures CountRewritable(photos, ids + [k]) ==
            CountRewritable(photos, ids) + (if PermanentFor(photos[k]).Some? then 1 else 0)
  {
    assert (ids + [k])[..|ids|] == ids;
  }

  /** Queueing the next photo's update, when it has a permanent url. */
  lemma QueuedSnoc(photos: seq<Photo>, ids: seq<nat>, updates: map<nat, Update>, k: nat)
    requires ValidIds(photos, ids) && k < |photos| && Queued(photos, ids, updates)
    ensures ValidIds(photos, ids + [k])
    ensures Queued(photos, ids + [k],
                   if PermanentFor(photos[k]).Some? then updates[k := Update(PermanentFor(photos[k]).value, photos[k].url)]
                   else updates)
  {
    assert forall j :: j in ids + [k] <==> j in ids || j == k;
  }

  /** The updates queued, in order, for the photos at `ids`. */
  function Queue(photos: seq<Photo>, ids: seq<nat>): map<nat, Update>
    requires ValidIds(photos, ids)
  {
    if ids == [] then map[]
    else
      var updates := Queue(photos, ids[..|ids| - 1]);
      var k := ids[|ids| - 1];
      if PermanentFor(photos[k]).Some? then updates[k := Update(PermanentFor(photos[k]).value, photos[k].url)]
      else updates
  }

  /** What was queued: one update per photo among `ids` with a permanent url. */
  lemma {:induction false} QueueMeaning(photos: seq<Photo>, ids: seq<nat>)
    requires ValidIds(photos, ids)
    ensures Queued(photos, ids, Queue(photos, ids))
  {
    if ids != [] {
      var front := ids[..|ids| - 1];
      QueueMeaning(photos, front);
      QueuedSnoc(photos, front, Queue(photos, front), ids[|ids| - 1]);
      assert front + [ids[|ids| - 1]] == ids;
    }
  }

  lemma {:induction false} CountRewritableAppend(photos: seq<Photo>, a: seq<nat>, b: seq<nat>)
    requires ValidIds(photos, a) && ValidIds(photos, b)
    ensures ValidIds(photos, a + b)
    ensures CountRewritable(photos, a + b) == CountRewritable(photos, a) + CountRewritable(photos, b)
    decreases |b|
  {
    if b == [] {
      assert a + b == a;
    } else {
      var front := b[..|b| - 1];
      CountRewritableAppend(photos, a, front);
      assert (a + b)[..|a + b| - 1] == a + front;
    }
  }

  /** The inner loop over one batch of the documents the query returned, the
      photos at `batch`: queue an update for each photo with a permanent url
      and count it as migrated, count every other one as failed. */
  method QueueUpdates(before: seq<Photo>, docs: seq<Photo>, batch: seq<nat>)
    returns (updates: map<nat, Update>, migrated: nat, failed: nat)
    requires |batch| == |docs| && ValidIds(before, batch)
    requires forall k :: 0 <= k < |docs| ==> docs[k] == before[batch[k]]
    ensures updates == Queue(before, batch)
    ensures migrated == CountRewritable(before, batch) && migrated + failed == |batch|
  {
    updates, migrated, failed := map[], 0, 0;
    var j := 0;
    while j < |batch|
      invariant j <= |batch|
      invariant updates == Queue(before, batch[..j])
      invariant migrated == CountRewritable(before, batch[..j]) && migrated + failed == j
    {
      var photo := docs[j];
      assert photo == before[batch[j]];
      assert batch[..j + 1][..j] == batch[..j];
      var permanentUrl := PermanentFor(photo);
      if permanentUrl.Some? {
        updates := updates[batch[j] := Update(permanentUrl.value, photo.url)];
        migrated := migrated + 1;
      } else {
        failed := failed + 1;
      }
      j := j + 1;
    }
    assert batch[..j] == batch;
  }

  /** The handler: every selected photo is processed once, in slices of 100
      whose updates are written together; a photo with a permanent url is
      rewritten and counted as migrated, any other counts as failed and is
      left alone. */
  method MigratePixabay(store: Store, projectId: nat, now: string)
    returns (total: nat, migrated: nat, failed: nat)
    modifies store
    ensures store.photos == MigrateAll(old(store.photos), projectId, now)
    ensures unchanged(store`projects) && store.nextProjectId == old(store.nextProjectId)
    ensures var sel := SelectedIds(old(store.photos), projectId, |old(store.photos)|);
      total == |sel| && migrated == CountRewritable(old(store.photos), sel) && failed == total - migrated
  {
    var found := store.photos;
    var selected := SelectedIds(found, projectId, |found|);
    assert Increasing(selected) by {
      SelectedIdsMeaning(found, projectId, |found|);
    }
    total := |selected|;
    migrated, failed := MigrateBatches(store, Fetch(found, selected), selected, now);
  }

  /** The loop of the handler over the documents `docs` the query returned,
      the photos at `selected`, one batch of at most 100 at a time. */
  method MigrateBatches(store: Store, docs: seq<Photo>, selected: seq<nat>, now: string)
    returns (migrated: nat, failed: nat)
    requires ValidIds(store.photos, selected) && Increasing(selected)
    requires docs == Fetch(store.photos, selected)
    modifies store
    ensures store.photos == MigrateAmong(old(store.photos), selected, now)
    ensures unchanged(store`projects) && store.nextProjectId == old(store.nextProjectId)
    ensures migrated == CountRewritable(old(store.photos), selected) && migrated + failed == |selected|
  {
    var found := store.photos;
    migrated, failed := 0, 0;
    var i: nat := 0;
    while i < |selected|
      invariant i <= |selected|
      invariant store.photos == MigrateAmong(found, selected[..i], now)
      invariant migrated == CountRewritable(found, selected[..i]) && migrated + failed == i
      invariant unchanged(store`projects) && store.nextProjectId == old(store.nextProjectId)
    {
      var batchMigrated, batchFailed;
      i, batchMigrated, batchFailed := MigrateBatch(store, found, docs, selected, i, now);
      migrated, failed := migrated + batchMigrated, failed + batchFailed;
    }
    assert selected[..i] == selected;
  }

  /** One pass of the loop: the batch `selected[i..end]`, with `end` at most
      100 further, is queued and written in one bulk write. */
  method MigrateBatch(store: Store, found: seq<Photo>, docs: seq<Photo>, selected: seq<nat>, i: nat, now: string)
    returns (end: nat, migrated: nat, failed: nat)
    requires ValidIds(found, selected) && Increasing(selected) && i < |selected|
    requires docs == Fetch(found, selected)
    requires store.photos == MigrateAmong(found, selected[..i], now)
    modifies store
    ensures i < end <= |selected| && end == Min(i + BATCH_SIZE, |selected|)
    ensures store.photos == MigrateAmong(found, selected[..end], now)
    ensures unchanged(store`projects) && store.nextProjectId == old(store.nextProjectId)
    ensures CountRewritable(found, selected[..end]) == CountRewritable(found, selected[..i]) + migrated
    ensures migrated + failed == end - i
  {
    end := Min(i + BATCH_SIZE, |selected|);
    FetchSlice(found, selected, i, end);
    var updates;
    updates, migrated, failed := QueueUpdates(found, docs[i..end], selected[i..end]);
    BatchStep(found, selected, i, end, updates, now);
    if |updates| > 0 {
      store.photos := BulkWrite(store.photos, updates, now);
    } else {
      BulkWriteNothing(store.photos, updates, now);
    }
  }

  predicate Increasing(ids: seq<nat>) {
    forall a, b :: 0 <= a < b < |ids| ==> ids[a] < ids[b]
  }

  /** The documents `find` returns for the photos at `ids`. */
  function Fetch(photos: seq<Photo>, ids: seq<nat>): (docs: seq<Photo>)
    requires ValidIds(photos, ids)
    ensures |docs| == |ids| && forall k :: 0 <= k < |ids| ==> docs[k] == photos[ids[k]]
  {
    seq(|ids|, k requires 0 <= k < |ids| => photos[ids[k]])
  }

  lemma FetchSlice(photos: seq<Photo>, ids: seq<nat>, i: nat, end: nat)
    requires ValidIds(photos, ids) && i <= end <= |ids|
    ensures ValidIds(photos, ids[i..end]) && Fetch(photos, ids)[i..end] == Fetch(photos, ids[i..end])
  {
    assert forall k :: 0 <= k < end - i ==> Fetch(photos, ids)[i..end][k] == Fetch(photos, ids)[i + k];
  }

  lemma BulkWriteNothing(photos: seq<Photo>, updates: map<nat, Update>, now: string)
    requires |updates| == 0
    ensures BulkWrite(photos, updates, now) == photos
  {
    assert updates == map[];
  }

  /** Writing one slice's updates extends the migrated prefix by that slice,
      and the slice's count adds to the prefix's. */
  lemma BatchStep(before: seq<Photo>, selected: seq<nat>, i: nat, end: nat, updates: map<nat, Update>, now: string)
    requires i <= end <= |selected|
    requires ValidIds(before, selected) && Increasing(selected)
    requires updates == Queue(before, selected[i..end])
    ensures BulkWrite(MigrateAmong(before, selected[..i], now), updates, now) == MigrateAmong(before, selected[..end], now)
    ensures CountRewritable(before, selected[..end]) == CountRewritable(before, selected[..i]) + CountRewritable(before, selected[i..end])
  {
    assert selected[..end] == selected[..i] + selected[i..end];
    CountRewritableAppend(before, selected[..i], selected[i..end]);
    QueueMeaning(before, selected[i..end]);
    BatchWrite(before, selected, i, end, updates, now);
  }

  lemma BatchWrite(before: seq<Photo>, selected: seq<nat>, i: nat, end: nat, updates: map<nat, Update>, now: string)
    requires i <= end <= |selected|
    requires ValidIds(before, selected) && Increasing(selected)
    requires Queued(before, selected[i..end], updates)
    ensures BulkWrite(MigrateAmong(before, selected[..i], now), updates, now) == MigrateAmong(before, selected[..end], now)
  {
    var lhs := BulkWrite(MigrateAmong(before, selected[..i], now), updates, now);
    var rhs := MigrateAmong(before, selected[..end], now);
    forall k | 0 <= k < |before| ensures lhs[k] == rhs[k] {
      if k in selected[i..end] {
        var a :| i <= a < end && selected[a] == k;
        assert selected[..end][a] == k;
      } else if k in selected[..i] {
        var a :| 0 <= a < i && selected[a] == k;
        assert selected[..end][a] == k;
      }
    }
  }

  // ---------------------------------------------------------------------
  // Status.

  datatype MigrationStatus = MigrationStatus(totalPixabay: nat, needsMigration: nat, migrated: nat, permanent: int)

  function Status(photos: seq<Photo>, projectId: nat): MigrationStatus {
    var total := |PixabayIds(photos, projectId, |photos|)|;
    var needs := |SelectedIds(photos, projectId, |photos|)|;
    MigrationStatus(total, needs, |MigratedIds(photos, projectId, |photos|)|, total - needs)
  }

  /** A photo stays selected by the migration query exactly when it was
      selected and had no permanent url. */
  lemma SelectedAfterAt(photos: seq<Photo>, projectId: nat, now: string, k: nat)
    requires k < |photos|
    ensures Selected(MigrateAll(photos, projectId, now)[k], projectId) <==>
            Selected(photos[k], projectId) && PermanentFor(photos[k]).None?
    ensures IsPixabay(MigrateAll(photos, projectId, now)[k], projectId) <==> IsPixabay(photos[k], projectId)
  {
    var all := SelectedIds(photos, projectId, |photos|);
    SelectedIdsMeaning(photos, projectId, |photos|);
    if Selected(photos[k], projectId) {
      assert k in all;
      match PermanentFor(photos[k])
      case Some(url) =>
        PermanentForIsPage(photos[k]);
        var id :| AllDigits(id) && url == PermanentUrl(id);
        PermanentUrlIsFinal(id);
      case None =>
    }
  }

  lemma UnrewritableSnoc(photos: seq<Photo>, ids: seq<nat>, k: nat)
    requires forall j :: 0 <= j < |ids| ==> ids[j] < |photos|
    requires k < |photos|
    ensures Unrewritable(photos, ids + [k]) ==
            Unrewritable(photos, ids) + (if PermanentFor(photos[k]).Some? then [] else [k])
  {
    assert (ids + [k])[..|ids|] == ids;
  }

  /** The photos still selected after a migration are exactly the selected
      ones that had no permanent url. */
  lemma SelectedAfterMigration(photos: seq<Photo>, projectId: nat, now: string)
    ensures SelectedIds(MigrateAll(photos, projectId, now), projectId, |photos|) ==
            Unrewritable(photos, SelectedIds(photos, projectId, |photos|))
  {
    var after := MigrateAll(photos, projectId, now);
    forall k | 0 <= k < |photos|
      ensures Selected(after[k], projectId) <==> Selected(photos[k], projectId) && PermanentFor(photos[k]).None?
    {
      SelectedAfterAt(photos, projectId, now, k);
    }
    SelectedFilter(photos, after, projectId, |photos|);
  }

  lemma {:induction false} SelectedFilter(photos: seq<Photo>, after: seq<Photo>, projectId: nat, upto: nat)
    requires upto <= |photos| == |after|
    requires forall k :: 0 <= k < |photos| ==>
      (Selected(after[k], projectId) <==> Selected(photos[k], projectId) && PermanentFor(photos[k]).None?)
    ensures SelectedIds(after, projectId, upto) == Unrewritable(photos, SelectedIds(photos, projectId, upto))
  {
    if upto > 0 {
      SelectedFilter(photos, after, projectId, upto - 1);
      var front := SelectedIds(photos, projectId, upto - 1);
      var k := upto - 1;
      if Selected(photos[k], projectId) {
        assert SelectedIds(photos, projectId, upto) == front + [k];
        UnrewritableSnoc(photos, front, k);
      } else {
        assert front + [] == front;
      }
    }
  }

  lemma {:induction false} PixabayIdsKept(photos: seq<Photo>, projectId: nat, now: string, upto: nat)
    requires upto <= |photos|
    ensures PixabayIds(MigrateAll(photos, projectId, now), projectId, upto) == PixabayIds(photos, projectId, upto)
  {
    if upto > 0 {
      PixabayIdsKept(photos, projectId, now, upto - 1);
      SelectedAfterAt(photos, projectId, now, upto - 1);
    }
  }

  /** The status the status endpoint reports after a migration: the photos
      that still need migration are exactly the failed ones, the Pixabay total
      is unchanged, and `permanent` grows by the number migrated. */
  lemma StatusAfterMigration(photos: seq<Photo>, projectId: nat, now: string)
    ensures var sel := SelectedIds(photos, projectId, |photos|);
      var before := Status(photos, projectId);
      var after := Status(MigrateAll(photos, projectId, now), projectId);
      after.needsMigration == |sel| - CountRewritable(photos, sel) &&
      after.totalPixabay == before.totalPixabay &&
      after.permanent == before.permanent + CountRewritable(photos, sel)
  {
    SelectedAfterMigration(photos, projectId, now);
    PixabayIdsKept(photos, projectId, now, |photos|);
  }

  /** Selected photos are Pixabay photos, so `permanent` is never negative. */
  lemma {:induction false} SelectedArePixabay(photos: seq<Photo>, projectId: nat, upto: nat)
    requires upto <= |photos|
    ensures |SelectedIds(photos, projectId, upto)| <= |PixabayIds(photos, projectId, upto)|
  {
    if upto > 0 {
      SelectedArePixabay(photos, projectId, upto - 1);
    }
  }

  lemma PermanentNonNegative(photos: seq<Photo>, projectId: nat)
    ensures Status(photos, projectId).permanent >= 0
  {
    SelectedArePixabay(photos, projectId, |photos|);
  }

  /** Running the migration a second time changes nothing. */
  lemma MigrationIdempotent(photos: seq<Photo>, projectId: nat, now: string, later: string)
    ensures MigrateAll(MigrateAll(photos, projectId, now), projectId, later) == MigrateAll(photos, projectId, now)
  {
    var once := MigrateAll(photos, projectId, now);
    var twice := MigrateAll(once, projectId, later);
    var sel := SelectedIds(photos, projectId, |photos|);
    var sel2 := SelectedIds(once, projectId, |once|);
    SelectedAfterMigration(photos, projectId, now);
    forall k | 0 <= k < |once| ensures twice[k] == once[k] {
      if k in sel2 {
        UnrewritableHasNone(photos, sel, k);
        assert once[k] == photos[k];
      }
    }
  }

  /** A second run finds nothing to migrate: every photo it selects again is
      one that failed the first time, so it answers `migrated = 0` and counts
      each of them as failed. */
  lemma SecondPassMigratesNothing(photos: seq<Photo>, projectId: nat, now: string)
    ensures var once := MigrateAll(photos, projectId, now);
      var sel2 := SelectedIds(once, projectId, |once|);
      CountRewritable(once, sel2) == 0 &&
      sel2 == Unrewritable(photos, SelectedIds(photos, projectId, |photos|))
  {
    var once := MigrateAll(photos, projectId, now);
    var sel := SelectedIds(photos, projectId, |photos|);
    var sel2 := SelectedIds(once, projectId, |once|);
    SelectedAfterMigration(photos, projectId, now);
    forall j | 0 <= j < |sel2| ensures PermanentFor(once[sel2[j]]).None? {
      UnrewritableHasNone(photos, sel, sel2[j]);
    }
    NoneRewritable(once, sel2);
  }

  lemma {:induction false} NoneRewritable(photos: seq<Photo>, ids: seq<nat>)
    requires forall j :: 0 <= j < |ids| ==> ids[j] < |photos| && PermanentFor(photos[ids[j]]).None?
    ensures CountRewritable(photos, ids) == 0
  {
    if ids != [] {
      NoneRewritable(photos, ids[..|ids| - 1]);
    }
  }

  lemma {:induction false} UnrewritableHasNone(photos: seq<Photo>, ids: seq<nat>, k: nat)
    requires forall j :: 0 <= j < |ids| ==> ids[j] < |photos|
    requires k in Unrewritable(photos, ids)
    ensures k in ids && k < |photos| && PermanentFor(photos[k]).None?
  {
    if ids != [] {
      var front := ids[..|ids| - 1];
      if k in Unrewritable(photos, front) {
        UnrewritableHasNone(photos, front, k);
      }
    }
  }
}
