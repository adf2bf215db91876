/** The photo library's database: the `Project` and `Photo` collections as
    sequences inside one store object, the project name rules of the
    create/rename/delete handlers, and the dedup-and-insert step every scraper
    shares. */
module Catalog {
  import opened Wrappers
  import opened Strings

  /** The `metadata` sub-document, reduced to the keys the core reads or writes. */
  datatype Metadata = Metadata(
    source: Option<string>,
    pixabayId: Option<nat>,
    oldTempUrl: Option<string>,
    migratedAt: Option<string>)

  const NoMetadata := Metadata(None, None, None, None)

  /** A stored photo. Its `_id` is its position in the store. */
  datatype Photo = Photo(
    projectId: nat,
    url: string,
    usageCount: int,
    language: Option<string>,
    locale: Option<string>,
    description: Option<string>,
    textAmount: Option<string>,
    imageType: Option<string>,
    metadata: Metadata)

  /** A photo as the page scraper creates it: only project, url and a zero usage count. */
  function BarePhoto(projectId: nat, url: string): Photo {
    Photo(projectId, url, 0, None, None, None, None, None, NoMetadata)
  }

  datatype Project = Project(id: nat, name: string)

  /** `Photo.exists({ projectId, url })`. */
  predicate Stored(photos: seq<Photo>, projectId: nat, url: string) {
    exists i | 0 <= i < |photos| :: photos[i].projectId == projectId && photos[i].url == url
  }

  /** No two photos share a project and a url. */
  predicate UniqueUrls(photos: seq<Photo>) {
    forall i, j :: 0 <= i < j < |photos| ==>
      !(photos[i].projectId == photos[j].projectId && photos[i].url == photos[j].url)
  }

  predicate UniqueNames(projects: seq<Project>) {
    forall i, j :: 0 <= i < j < |projects| ==> projects[i].name != projects[j].name
  }

  predicate UniqueIds(projects: seq<Project>) {
    forall i, j :: 0 <= i < j < |projects| ==> projects[i].id != projects[j].id
  }

  predicate HasProject(projects: seq<Project>, id: nat) {
    exists i | 0 <= i < |projects| :: projects[i].id == id
  }

  /** A project other than `id` already carries `name`. */
  predicate NameTakenByOther(projects: seq<Project>, name: string, id: nat) {
    exists i | 0 <= i < |projects| :: projects[i].name == name && projects[i].id != id
  }

  predicate NameTaken(projects: seq<Project>, name: string) {
    exists i | 0 <= i < |projects| :: projects[i].name == name
  }

  /** `projects` with the project `id` renamed to `name`. */
  function Renamed(projects: seq<Project>, id: nat, name: string): (r: seq<Project>)
    ensures |r| == |projects|
    ensures forall i :: 0 <= i < |r| ==>
      r[i] == (if projects[i].id == id then Project(id, name) else projects[i])
  {
    if projects == [] then []
    else [if projects[0].id == id then Project(id, name) else projects[0]] + Renamed(projects[1..], id, name)
  }

  /** `projects` without the project `id`. */
  function Without(projects: seq<Project>, id: nat): (r: seq<Project>)
    ensures forall p :: p in r <==> p in projects && p.id != id
    ensures |r| <= |projects|
  {
    if projects == [] then []
    else (if projects[0].id == id then [] else [projects[0]]) + Without(projects[1..], id)
  }

  /** Renaming to a name nobody else holds keeps project names unique. */
  lemma {:induction false} RenameKeepsNamesUnique(projects: seq<Project>, id: nat, name: string)
    requires UniqueNames(projects) && UniqueIds(projects)
    requires !NameTakenByOther(projects, name, id)
    ensures UniqueNames(Renamed(projects, id, name))
    ensures UniqueIds(Renamed(projects, id, name))
  {
    var r := Renamed(projects, id, name);
    forall i, j | 0 <= i < j < |r|
      ensures r[i].name != r[j].name && r[i].id != r[j].id
    {
      if projects[i].id == id {
        assert projects[j].id != id;
      }
    }
  }

  lemma UniqueTail(projects: seq<Project>)
    requires projects != [] && UniqueNames(projects) && UniqueIds(projects)
    ensures UniqueNames(projects[1..]) && UniqueIds(projects[1..])
  {
    var rest := projects[1..];
    forall i, j | 0 <= i < j < |rest| ensures rest[i].name != rest[j].name && rest[i].id != rest[j].id {
      assert rest[i] == projects[i + 1] && rest[j] == projects[j + 1];
    }
  }

  lemma UniqueCons(p: Project, tail: seq<Project>)
    requires UniqueNames(tail) && UniqueIds(tail)
    requires forall k :: 0 <= k < |tail| ==> tail[k].name != p.name && tail[k].id != p.id
    ensures UniqueNames([p] + tail) && UniqueIds([p] + tail)
  {
    var r := [p] + tail;
    forall i, j | 0 <= i < j < |r| ensures r[i].name != r[j].name && r[i].id != r[j].id {
      if i == 0 {
        assert r[j] == tail[j - 1];
      } else {
        assert r[i] == tail[i - 1] && r[j] == tail[j - 1];
      }
    }
  }

  /** Removing a project keeps names and ids unique. */
  lemma {:induction false} DeleteKeepsUnique(projects: seq<Project>, id: nat)
    requires UniqueNames(projects) && UniqueIds(projects)
    ensures UniqueNames(Without(projects, id)) && UniqueIds(Without(projects, id))
    decreases |projects|
  {
    if projects != [] {
      var rest := projects[1..];
      UniqueTail(projects);
      DeleteKeepsUnique(rest, id);
      var tail := Without(rest, id);
      if projects[0].id != id {
        assert Without(projects, id) == [projects[0]] + tail;
        forall k | 0 <= k < |tail|
          ensures tail[k].name != projects[0].name && tail[k].id != projects[0].id
        {
          assert tail[k] in rest;
          var m :| 0 <= m < |rest| && rest[m] == tail[k];
          assert rest[m] == projects[m + 1];
        }
        UniqueCons(projects[0], tail);
      } else {
        assert Without(projects, id) == tail;
      }
    }
  }

  // ---------------------------------------------------------------------
  // Dedup-and-insert: the discipline every scraper applies to its candidates.

  /** The running state of one scraper call: the store, the run's `seen` set
      and the `added` counter. */
  datatype Run = Run(photos: seq<Photo>, seen: set<string>, added: nat)

  /** A candidate the scraper drops before touching `seen`: already seen, or
      (in the scrapers that test `!imageUrl`) an empty url. */
  predicate Dropped(run: Run, candidate: Photo, skipEmpty: bool) {
    (skipEmpty && candidate.url == "") || candidate.url in run.seen
  }

  /** One candidate: skip it, or mark it seen and create it unless the
      project already holds its url. */
  function Step(run: Run, candidate: Photo, skipEmpty: bool): (next: Run)
    ensures Dropped(run, candidate, skipEmpty) ==> next == run
    ensures !Dropped(run, candidate, skipEmpty) ==>
      next.seen == run.seen + {candidate.url} &&
      (if Stored(run.photos, candidate.projectId, candidate.url)
       then next.photos == run.photos && next.added == run.added
       else next.photos == run.photos + [candidate] && next.added == run.added + 1)
  {
    if Dropped(run, candidate, skipEmpty) then run
    else if Stored(run.photos, candidate.projectId, candidate.url) then
      Run(run.photos, run.seen + {candidate.url}, run.added)
    else
      Run(run.photos + [candidate], run.seen + {candidate.url}, run.added + 1)
  }

  /** The candidates handled in order, from the first to the last. */
  function Insertion(run: Run, candidates: seq<Photo>, skipEmpty: bool): Run
    decreases |candidates|
  {
    if candidates == [] then run
    else Step(Insertion(run, candidates[..|candidates| - 1], skipEmpty), candidates[|candidates| - 1], skipEmpty)
  }

  /** Candidates of one call all belong to the call's project. */
  predicate OfProject(candidates: seq<Photo>, projectId: nat) {
    forall i :: 0 <= i < |candidates| ==> candidates[i].projectId == projectId
  }

  /** Every url the run has seen is stored for the project. */
  predicate SeenStored(run: Run, projectId: nat) {
    forall u :: u in run.seen ==> Stored(run.photos, projectId, u)
  }

  lemma StoredExtends(photos: seq<Photo>, more: seq<Photo>, projectId: nat, url: string)
    requires Stored(photos, projectId, url)
    ensures Stored(photos + more, projectId, url)
  {
    var i :| 0 <= i < |photos| && photos[i].projectId == projectId && photos[i].url == url;
    assert (photos + more)[i] == photos[i];
  }

  lemma StoredLast(photos: seq<Photo>, p: Photo)
    ensures Stored(photos + [p], p.projectId, p.url)
  {
    assert (photos + [p])[|photos|] == p;
  }

  /** What the dedup step promises for one call: existing rows are kept and
      only appended to, the count it returns is the number of rows created
      (never more than the candidates), every created row is a candidate, no
      (project, url) pair is stored twice that was not stored twice before,
      and a project's urls seen by the run are all stored. */
  lemma {:induction false} InsertionSound(run: Run, candidates: seq<Photo>, skipEmpty: bool, projectId: nat)
    requires OfProject(candidates, projectId)
    requires UniqueUrls(run.photos) && SeenStored(run, projectId)
    ensures var r := Insertion(run, candidates, skipEmpty);
      |run.photos| <= |r.photos| && r.photos[..|run.photos|] == run.photos &&
      r.added == run.added + (|r.photos| - |run.photos|) &&
      r.added <= run.added + |candidates| &&
      (forall k :: |run.photos| <= k < |r.photos| ==> r.photos[k] in candidates) &&
      UniqueUrls(r.photos) && SeenStored(r, projectId) && run.seen <= r.seen
    decreases |candidates|
  {
    if candidates != [] {
      var front := candidates[..|candidates| - 1];
      var c := candidates[|candidates| - 1];
      assert OfProject(front, projectId);
      InsertionSound(run, front, skipEmpty, projectId);
      var mid := Insertion(run, front, skipEmpty);
      var r := Step(mid, c, skipEmpty);
      assert r == Insertion(run, candidates, skipEmpty);
      forall k | |run.photos| <= k < |mid.photos| ensures mid.photos[k] in candidates {
        assert mid.photos[k] in front;
      }
      if !Dropped(mid, c, skipEmpty) {
        if Stored(mid.photos, c.projectId, c.url) {
          assert SeenStored(r, projectId);
        } else {
          StepAppendsUnique(mid.photos, c);
          forall u | u in r.seen ensures Stored(r.photos, projectId, u) {
            if u == c.url {
              StoredLast(mid.photos, c);
            } else {
              StoredExtends(mid.photos, [c], projectId, u);
            }
          }
          assert r.photos[..|run.photos|] == mid.photos[..|run.photos|];
          assert r.photos[|mid.photos|] == c;
        }
      }
    }
  }

  /** The dedup step only appends, and every row it appends is one of its
      candidates. */
  lemma {:induction false} InsertionCreatesCandidates(run: Run, candidates: seq<Photo>, skipEmpty: bool)
    ensures var r := Insertion(run, candidates, skipEmpty);
      |run.photos| <= |r.photos| && forall k :: |run.photos| <= k < |r.photos| ==> r.photos[k] in candidates
    decreases |candidates|
  {
    if candidates != [] {
      var front := candidates[..|candidates| - 1];
      InsertionCreatesCandidates(run, front, skipEmpty);
      var mid := Insertion(run, front, skipEmpty);
      var r := Step(mid, candidates[|candidates| - 1], skipEmpty);
      forall k | |run.photos| <= k < |r.photos| ensures r.photos[k] in candidates {
        if k < |mid.photos| {
          assert r.photos[k] == mid.photos[k];
          assert mid.photos[k] in front;
        }
      }
    }
  }

  lemma StepAppendsUnique(photos: seq<Photo>, p: Photo)
    requires UniqueUrls(photos) && !Stored(photos, p.projectId, p.url)
    ensures UniqueUrls(photos + [p])
  {
    var r := photos + [p];
    forall i, j | 0 <= i < j < |r| ensures !(r[i].projectId == r[j].projectId && r[i].url == r[j].url) {
      if j == |photos| {
        assert r[i] == photos[i];
      } else {
        assert r[i] == photos[i] && r[j] == photos[j];
      }
    }
  }

  /** Every candidate the run did not drop for an empty url ends up stored:
      it was seen before, created now, or already there. */
  lemma {:induction false} InsertionCovers(run: Run, candidates: seq<Photo>, skipEmpty: bool, projectId: nat)
    requires OfProject(candidates, projectId)
    requires SeenStored(run, projectId)
    ensures var r := Insertion(run, candidates, skipEmpty);
      forall i :: 0 <= i < |candidates| && !(skipEmpty && candidates[i].url == "") ==>
        candidates[i].url in r.seen && Stored(r.photos, projectId, candidates[i].url)
    decreases |candidates|
  {
    if candidates != [] {
      var front := candidates[..|candidates| - 1];
      var c := candidates[|candidates| - 1];
      assert OfProject(front, projectId);
      InsertionCovers(run, front, skipEmpty, projectId);
      InsertionKeepsSeenStored(run, front, skipEmpty, projectId);
      var mid := Insertion(run, front, skipEmpty);
      var r := Step(mid, c, skipEmpty);
      assert r == Insertion(run, candidates, skipEmpty);
      forall i | 0 <= i < |candidates| && !(skipEmpty && candidates[i].url == "")
        ensures candidates[i].url in r.seen && Stored(r.photos, projectId, candidates[i].url)
      {
        var u := candidates[i].url;
        if i < |front| {
          assert candidates[i] == front[i];
          assert u in mid.seen && Stored(mid.photos, projectId, u);
        } else {
          assert candidates[i] == c;
        }
        if r.photos != mid.photos {
          if Stored(mid.photos, projectId, u) {
            StoredExtends(mid.photos, [c], projectId, u);
          } else {
            StoredLast(mid.photos, c);
          }
        }
      }
    }
  }

  lemma {:induction false} InsertionKeepsSeenStored(run: Run, candidates: seq<Photo>, skipEmpty: bool, projectId: nat)
    requires OfProject(candidates, projectId)
    requires SeenStored(run, projectId)
    ensures SeenStored(Insertion(run, candidates, skipEmpty), projectId)
    decreases |candidates|
  {
    if candidates != [] {
      var front := candidates[..|candidates| - 1];
      var c := candidates[|candidates| - 1];
      assert OfProject(front, projectId);
      InsertionKeepsSeenStored(run, front, skipEmpty, projectId);
      var mid := Insertion(run, front, skipEmpty);
      if !Dropped(mid, c, skipEmpty) && !Stored(mid.photos, c.projectId, c.url) {
        forall u | u in mid.seen + {c.url} ensures Stored(mid.photos + [c], projectId, u) {
          if u == c.url {
            StoredLast(mid.photos, c);
          } else {
            StoredExtends(mid.photos, [c], projectId, u);
          }
        }
      }
    }
  }

  /** Once every candidate is stored, handling them again, even with a fresh
      `seen` set, creates nothing. */
  lemma {:induction false} InsertionOfStoredAddsNothing(run: Run, candidates: seq<Photo>, skipEmpty: bool)
    requires forall i :: 0 <= i < |candidates| ==> Stored(run.photos, candidates[i].projectId, candidates[i].url)
    ensures Insertion(run, candidates, skipEmpty).photos == run.photos
    ensures Insertion(run, candidates, skipEmpty).added == run.added
    decreases |candidates|
  {
    if candidates != [] {
      var front := candidates[..|candidates| - 1];
      assert forall i :: 0 <= i < |front| ==> front[i] == candidates[i];
      InsertionOfStoredAddsNothing(run, front, skipEmpty);
    }
  }

  /** Handling two lists of candidates one after the other is handling their
      concatenation. */
  lemma {:induction false} InsertionAppend(run: Run, a: seq<Photo>, b: seq<Photo>, skipEmpty: bool)
    ensures Insertion(run, a + b, skipEmpty) == Insertion(Insertion(run, a, skipEmpty), b, skipEmpty)
    decreases |b|
  {
    if b == [] {
      assert a + b == a;
    } else {
      var front := b[..|b| - 1];
      assert (a + b)[..|a + b| - 1] == a + front;
      InsertionAppend(run, a, front, skipEmpty);
    }
  }

  /** The counter a call starts from only offsets the count it returns. */
  lemma {:induction false} InsertionShift(photos: seq<Photo>, seen: set<string>, added: nat, candidates: seq<Photo>, skipEmpty: bool)
    ensures var r := Insertion(Run(photos, seen, 0), candidates, skipEmpty);
      Insertion(Run(photos, seen, added), candidates, skipEmpty) == Run(r.photos, r.seen, added + r.added)
    decreases |candidates|
  {
    if candidates != [] {
      InsertionShift(photos, seen, added, candidates[..|candidates| - 1], skipEmpty);
    }
  }

  /** `after` is `before` with rows of `projectId` appended: no row is changed
      or removed, no (project, url) pair becomes duplicated, the run's `seen`
      set only grows and its counter grows by at most the rows created. */
  predicate Extends(before: Run, after: Run, projectId: nat) {
    |before.photos| <= |after.photos| && after.photos[..|before.photos|] == before.photos &&
    before.added <= after.added <= before.added + (|after.photos| - |before.photos|) &&
    (forall k :: |before.photos| <= k < |after.photos| ==> after.photos[k].projectId == projectId) &&
    (UniqueUrls(before.photos) ==> UniqueUrls(after.photos)) &&
    before.seen <= after.seen
  }

  lemma ExtendsTrans(a: Run, b: Run, c: Run, projectId: nat)
    requires Extends(a, b, projectId) && Extends(b, c, projectId)
    ensures Extends(a, c, projectId)
  {
    assert c.photos[..|a.photos|] == c.photos[..|b.photos|][..|a.photos|];
    forall k | |a.photos| <= k < |c.photos| ensures c.photos[k].projectId == projectId {
      if k < |b.photos| {
        assert c.photos[k] == c.photos[..|b.photos|][k];
      }
    }
  }

  /** The dedup step extends the store, counting exactly the rows it creates,
      whatever the run has seen before. */
  lemma {:induction false} InsertionExtends(run: Run, candidates: seq<Photo>, skipEmpty: bool, projectId: nat)
    requires OfProject(candidates, projectId)
    ensures Extends(run, Insertion(run, candidates, skipEmpty), projectId)
    ensures Insertion(run, candidates, skipEmpty).added - run.added ==
      |Insertion(run, candidates, skipEmpty).photos| - |run.photos|
    decreases |candidates|
  {
    if candidates != [] {
      var front := candidates[..|candidates| - 1];
      var c := candidates[|candidates| - 1];
      assert OfProject(front, projectId);
      InsertionExtends(run, front, skipEmpty, projectId);
      var mid := Insertion(run, front, skipEmpty);
      var r := Step(mid, c, skipEmpty);
      if r.photos != mid.photos {
        if UniqueUrls(mid.photos) {
          StepAppendsUnique(mid.photos, c);
        }
        assert Extends(mid, r, projectId);
        ExtendsTrans(run, mid, r, projectId);
      } else {
        assert Extends(mid, r, projectId);
        ExtendsTrans(run, mid, r, projectId);
      }
    }
  }

  /** The store. */
  class Store {
    var photos: seq<Photo>
    var projects: seq<Project>
    var nextProjectId: nat

    /** Project names and ids are unique and every id was issued. */
    predicate Valid()
      reads this
    {
      UniqueNames(projects) && UniqueIds(projects) &&
      forall i :: 0 <= i < |projects| ==> projects[i].id < nextProjectId
    }

    constructor ()
      ensures photos == [] && projects == [] && Valid()
    {
      photos := [];
      projects := [];
      nextProjectId := 0;
    }

    /** `POST /api/projects`: a missing or empty name is refused with 400, a
        name some project already has exactly is refused with 409, and
        otherwise the name is stored as given, untrimmed. */
    method CreateProject(name: Option<string>) returns (r: Result<Project>)
      requires Valid()
      modifies this
      ensures Valid()
      ensures unchanged(this`photos)
      ensures (name == None || name == Some("")) <==> r == Err(BadRequest)
      ensures r == Err(Conflict) <==>
        (name.Some? && name.value != "" && NameTaken(old(projects), name.value))
      ensures r.Ok? ==>
        r.value == Project(old(nextProjectId), name.value) &&
        projects == old(projects) + [r.value]
      ensures r.Err? ==> projects == old(projects) && nextProjectId == old(nextProjectId)
    {
      if name == None || name == Some("") {
        return Err(BadRequest);
      }
      if NameTaken(projects, name.value) {
        return Err(Conflict);
      }
      var p := Project(nextProjectId, name.value);
      projects := projects + [p];
      nextProjectId := nextProjectId + 1;
      r := Ok(p);
      assert !NameTaken(old(projects), name.value);
      forall i, j | 0 <= i < j < |projects| ensures projects[i].name != projects[j].name && projects[i].id != projects[j].id {
        if j == |projects| - 1 {
          assert projects[i] == old(projects)[i];
        }
      }
    }

    /** `PUT /api/projects/:id`: a missing or whitespace-only name is refused
        with 400; the trimmed name held by a different project is refused with
        409, before the project itself is looked up; an unknown id is then
        answered with 404; otherwise the project gets the trimmed name. */
    method RenameProject(id: nat, name: Option<string>) returns (r: Result<Project>)
      requires Valid()
      modifies this
      ensures Valid()
      ensures unchanged(this`photos) && nextProjectId == old(nextProjectId)
      ensures (name == None || Trim(name.value) == "") <==> r == Err(BadRequest)
      ensures r == Err(Conflict) <==>
        (name.Some? && Trim(name.value) != "" && NameTakenByOther(old(projects), Trim(name.value), id))
      ensures r == Err(NotFound) <==>
        (name.Some? && Trim(name.value) != "" && !NameTakenByOther(old(projects), Trim(name.value), id) &&
         !HasProject(old(projects), id))
      ensures r.Ok? ==>
        r.value == Project(id, Trim(name.value)) && projects == Renamed(old(projects), id, Trim(name.value))
      ensures r.Err? ==> projects == old(projects)
    {
      if name == None || Trim(name.value) == "" {
        return Err(BadRequest);
      }
      var trimmed := Trim(name.value);
      if NameTakenByOther(projects, trimmed, id) {
        return Err(Conflict);
      }
      if !HasProject(projects, id) {
        return Err(NotFound);
      }
      RenameKeepsNamesUnique(projects, id, trimmed);
      projects := Renamed(projects, id, trimmed);
      r := Ok(Project(id, trimmed));
    }

    /** `DELETE /api/projects/:id`: an unknown id is answered with 404;
        otherwise the project is removed. Its photos stay in the store. */
    method DeleteProject(id: nat) returns (r: Result<bool>)
      requires Valid()
      modifies this
      ensures Valid()
      ensures unchanged(this`photos) && nextProjectId == old(nextProjectId)
      ensures r == Err(NotFound) <==> !HasProject(old(projects), id)
      ensures r.Ok? ==> r.value && projects == Without(old(projects), id)
      ensures r.Err? ==> projects == old(projects)
    {
      if !HasProject(projects, id) {
        return Err(NotFound);
      }
      DeleteKeepsUnique(projects, id);
      projects := Without(projects, id);
      r := Ok(true);
    }

    /** The dedup-and-insert loop of a scraper: each candidate in turn is
        dropped if its url is in `seen` (or, with `skipEmpty`, empty), is
        otherwise added to `seen`, and is created unless the project already
        holds its url. Returns the number of rows created and the new `seen`. */
    method InsertNew(candidates: seq<Photo>, seen: set<string>, skipEmpty: bool)
      returns (added: nat, seen': set<string>)
      modifies this
      ensures Run(photos, seen', added) == Insertion(Run(old(photos), seen, 0), candidates, skipEmpty)
      ensures unchanged(this`projects) && nextProjectId == old(nextProjectId)
    {
      added, seen' := 0, seen;
      var i := 0;
      while i < |candidates|
        invariant 0 <= i <= |candidates|
        invariant Run(photos, seen', added) == Insertion(Run(old(photos), seen, 0), candidates[..i], skipEmpty)
        invariant unchanged(this`projects) && nextProjectId == old(nextProjectId)
      {
        var c := candidates[i];
        assert candidates[..i + 1][..i] == candidates[..i];
        if (skipEmpty && c.url == "") || c.url in seen' {
          i := i + 1;
          continue;
        }
        seen' := seen' + {c.url};
        if !Stored(photos, c.projectId, c.url) {
          photos := photos + [c];
          added := added + 1;
        }
        i := i + 1;
      }
      assert candidates[..i] == candidates;
    }
  }
}
