/** `POST /api/projects/:id/photos/use`: pick the project's photos with the
    lowest usage counts (`sort({ usageCount: 1 }).limit(count)`) and count one
    more use of each. */
module Usage {
  import opened Wrappers
  import opened Catalog

  function Min(a: nat, b: nat): nat {
    if a <= b then a else b
  }

  /** How many documents a Mongo cursor with `.limit(n)` yields out of
      `available`: a zero limit means no limit, a negative one its absolute value. */
  function EffectiveLimit(n: int, available: nat): (k: nat)
    ensures k <= available
    ensures n == 0 ==> k == available
    ensures n != 0 && available > 0 ==> k > 0
    ensures n != 0 ==> k == Min(if n < 0 then -n else n, available)
  {
    if n == 0 then available else Min(if n < 0 then -n else n, available)
  }

  predicate ValidIndices(photos: seq<Photo>, idx: seq<nat>) {
    forall k :: 0 <= k < |idx| ==> idx[k] < |photos|
  }

  predicate Distinct(idx: seq<nat>) {
    forall a, b :: 0 <= a < b < |idx| ==> idx[a] != idx[b]
  }

  /** The positions of the project's photos, in store order. */
  function ProjectIndices(photos: seq<Photo>, projectId: nat, from: nat := 0): (r: seq<nat>)
    requires from <= |photos|
    ensures ValidIndices(photos, r) && Distinct(r)
    ensures forall i :: i in r <==> from <= i < |photos| && photos[i].projectId == projectId
    ensures forall k :: 0 <= k < |r| ==> from <= r[k]
    decreases |photos| - from
  {
    if from == |photos| then []
    else (if photos[from].projectId == projectId then [from] else []) + ProjectIndices(photos, projectId, from + 1)
  }

  /** Photos with lower usage counts come first. */
  predicate Ascending(photos: seq<Photo>, sel: seq<nat>)
    requires ValidIndices(photos, sel)
  {
    forall a, b :: 0 <= a < b < |sel| ==> photos[sel[a]].usageCount <= photos[sel[b]].usageCount
  }

  /** `x` placed before the first position whose usage count is not lower,
      so that among equal counts the earlier candidate stays first. */
  function Insert(photos: seq<Photo>, x: nat, s: seq<nat>): (r: seq<nat>)
    requires x < |photos| && ValidIndices(photos, s)
    ensures multiset(r) == multiset(s) + multiset{x}
    ensures |r| == |s| + 1 && ValidIndices(photos, r)
  {
    if s == [] || photos[x].usageCount <= photos[s[0]].usageCount then [x] + s
    else
      var t := Insert(photos, x, s[1..]);
      assert s == [s[0]] + s[1..];
      [s[0]] + t
  }

  /** `sort({ usageCount: 1 })`: the candidates ordered by usage count. The
      database leaves the order among equal counts open; this model breaks
      ties by store position, so which of several equally used photos are
      taken is this model's choice, not the source's (LowestTakesLeastUsed and
      UsedAddsOnePerPhoto hold for any tie order). */
  function SortByUsage(photos: seq<Photo>, cands: seq<nat>): (r: seq<nat>)
    requires ValidIndices(photos, cands)
    ensures multiset(r) == multiset(cands)
    ensures |r| == |cands| && ValidIndices(photos, r)
  {
    if cands == [] then []
    else
      assert cands == [cands[0]] + cands[1..];
      Insert(photos, cands[0], SortByUsage(photos, cands[1..]))
  }

  lemma InsertAscending(photos: seq<Photo>, x: nat, s: seq<nat>)
    requires x < |photos| && ValidIndices(photos, s) && Ascending(photos, s)
    ensures Ascending(photos, Insert(photos, x, s))
    decreases |s|
  {
    var r := Insert(photos, x, s);
    if s == [] || photos[x].usageCount <= photos[s[0]].usageCount {
      forall a, b | 0 <= a < b < |r| ensures photos[r[a]].usageCount <= photos[r[b]].usageCount {
        assert r[b] == s[b - 1];
        if a > 0 { assert r[a] == s[a - 1]; }
      }
    } else {
      var t := Insert(photos, x, s[1..]);
      InsertAscending(photos, x, s[1..]);
      forall b | 0 <= b < |t| ensures photos[s[0]].usageCount <= photos[t[b]].usageCount {
        assert t[b] in multiset(t);
        if t[b] != x {
          assert t[b] in multiset(s[1..]);
          var c :| 0 <= c < |s[1..]| && s[1..][c] == t[b];
          assert s[c + 1] == t[b];
        }
      }
      AscendingCons(photos, s[0], t);
    }
  }

  lemma AscendingCons(photos: seq<Photo>, x: nat, t: seq<nat>)
    requires x < |photos| && ValidIndices(photos, t) && Ascending(photos, t)
    requires forall b :: 0 <= b < |t| ==> photos[x].usageCount <= photos[t[b]].usageCount
    ensures ValidIndices(photos, [x] + t) && Ascending(photos, [x] + t)
  {
    var r := [x] + t;
    forall a, b | 0 <= a < b < |r| ensures photos[r[a]].usageCount <= photos[r[b]].usageCount {
      assert r[b] == t[b - 1];
      if a > 0 { assert r[a] == t[a - 1]; }
    }
  }

  /** The sort puts the candidates in ascending order of usage. */
  lemma {:induction false} SortAscending(photos: seq<Photo>, cands: seq<nat>)
    requires ValidIndices(photos, cands)
    ensures Ascending(photos, SortByUsage(photos, cands))
  {
    if cands != [] {
      SortAscending(photos, cands[1..]);
      InsertAscending(photos, cands[0], SortByUsage(photos, cands[1..]));
    }
  }

  lemma {:induction false} DistinctCounts(s: seq<nat>)
    requires Distinct(s)
    ensures forall x :: multiset(s)[x] <= 1
  {
    if s != [] {
      var rest := s[1..];
      assert Distinct(rest) by {
        forall a, b | 0 <= a < b < |rest| ensures rest[a] != rest[b] {
          assert rest[a] == s[a + 1] && rest[b] == s[b + 1];
        }
      }
      DistinctCounts(rest);
      assert s == [s[0]] + rest;
      assert s[0] !in rest by {
        forall b | 0 <= b < |rest| ensures rest[b] != s[0] {
          assert rest[b] == s[b + 1];
        }
      }
    }
  }

  lemma CountsDistinct(s: seq<nat>)
    requires forall x :: multiset(s)[x] <= 1
    ensures Distinct(s)
  {
    forall a, b | 0 <= a < b < |s| ensures s[a] != s[b] {
      var front, back := s[..b], s[b..];
      assert s == front + back;
      assert s[a] == front[a] && s[b] == back[0];
      assert multiset(s)[s[b]] == multiset(front)[s[b]] + multiset(back)[s[b]];
      assert multiset(back)[s[b]] >= 1;
    }
  }

  /** `limit(k)` after the sort: the `k` least used candidates, least used
      first; exactly `min(k, |cands|)` of them, each a distinct candidate. */
  function Lowest(photos: seq<Photo>, cands: seq<nat>, k: nat): (sel: seq<nat>)
    requires ValidIndices(photos, cands) && Distinct(cands)
    ensures |sel| == Min(k, |cands|)
    ensures ValidIndices(photos, sel) && Distinct(sel)
    ensures forall i :: i in sel ==> i in cands
  {
    var sorted := SortByUsage(photos, cands);
    DistinctCounts(cands);
    CountsDistinct(sorted);
    var sel := sorted[..Min(k, |cands|)];
    assert forall i :: i in sel ==> i in multiset(sorted);
    sel
  }

  /** Every photo taken is used at most as often as every candidate left out. */
  predicate TakesLeastUsed(photos: seq<Photo>, sel: seq<nat>, cands: seq<nat>)
    requires ValidIndices(photos, sel) && ValidIndices(photos, cands)
  {
    forall a, b :: 0 <= a < |sel| && 0 <= b < |cands| && cands[b] !in sel ==>
      photos[sel[a]].usageCount <= photos[cands[b]].usageCount
  }

  /** No candidate left out is used less than a candidate taken. */
  lemma LowestTakesLeastUsed(photos: seq<Photo>, cands: seq<nat>, k: nat)
    requires ValidIndices(photos, cands) && Distinct(cands)
    ensures TakesLeastUsed(photos, Lowest(photos, cands, k), cands)
  {
    var sorted := SortByUsage(photos, cands);
    var sel := Lowest(photos, cands, k);
    SortAscending(photos, cands);
    forall a, b | 0 <= a < |sel| && 0 <= b < |cands| && cands[b] !in sel
      ensures photos[sel[a]].usageCount <= photos[cands[b]].usageCount
    {
      assert cands[b] in multiset(sorted);
      var j :| 0 <= j < |sorted| && sorted[j] == cands[b];
      assert sel[a] == sorted[a];
    }
  }

  /** The selection comes least used first. */
  lemma LowestAscending(photos: seq<Photo>, cands: seq<nat>, k: nat)
    requires ValidIndices(photos, cands) && Distinct(cands)
    ensures Ascending(photos, Lowest(photos, cands, k))
  {
    var sorted := SortByUsage(photos, cands);
    var sel := Lowest(photos, cands, k);
    SortAscending(photos, cands);
    forall a, b | 0 <= a < b < |sel| ensures photos[sel[a]].usageCount <= photos[sel[b]].usageCount {
      assert sel[a] == sorted[a] && sel[b] == sorted[b];
    }
  }

  /** The store after one more use of every selected photo. */
  function Used(photos: seq<Photo>, sel: seq<nat>): (r: seq<Photo>)
    ensures |r| == |photos|
  {
    seq(|photos|, i requires 0 <= i < |photos| =>
      if i in sel then photos[i].(usageCount := photos[i].usageCount + 1) else photos[i])
  }

  function TotalUsage(photos: seq<Photo>): int {
    if photos == [] then 0 else TotalUsage(photos[..|photos| - 1]) + photos[|photos| - 1].usageCount
  }

  function CountIn(sel: seq<nat>, n: nat): nat {
    if n == 0 then 0 else CountIn(sel, n - 1) + (if n - 1 in sel then 1 else 0)
  }

  lemma {:induction false} CountInAll(sel: seq<nat>, n: nat)
    requires Distinct(sel) && forall k :: 0 <= k < |sel| ==> sel[k] < n
    ensures CountIn(sel, n) == |sel|
    decreases |sel|
  {
    if sel == [] {
      CountInNone(n);
    } else {
      var front, last := sel[..|sel| - 1], sel[|sel| - 1];
      assert sel == front + [last];
      assert Distinct(front) by {
        forall a, b | 0 <= a < b < |front| ensures front[a] != front[b] {
          assert front[a] == sel[a] && front[b] == sel[b];
        }
      }
      assert last !in front by {
        forall a | 0 <= a < |front| ensures front[a] != last {
          assert front[a] == sel[a];
        }
      }
      CountInAll(front, n);
      CountInSnoc(front, last, n);
    }
  }

  lemma {:induction false} CountInNone(n: nat)
    ensures CountIn([], n) == 0
  {
    if n > 0 {
      CountInNone(n - 1);
    }
  }

  lemma {:induction false} CountInSnoc(s: seq<nat>, x: nat, n: nat)
    requires x !in s
    ensures CountIn(s + [x], n) == CountIn(s, n) + (if x < n then 1 else 0)
  {
    if n > 0 {
      CountInSnoc(s, x, n - 1);
      assert n - 1 in s + [x] <==> n - 1 in s || n - 1 == x;
    }
  }

  lemma {:induction false} UsedPrefix(photos: seq<Photo>, sel: seq<nat>, n: nat)
    requires n <= |photos|
    ensures TotalUsage(Used(photos, sel)[..n]) == TotalUsage(photos[..n]) + CountIn(sel, n)
  {
    if n > 0 {
      UsedPrefix(photos, sel, n - 1);
      assert Used(photos, sel)[..n][..n - 1] == Used(photos, sel)[..n - 1];
      assert photos[..n][..n - 1] == photos[..n - 1];
    }
  }

  /** Using photos adds exactly one use per selected photo to the project's
      usage total. */
  lemma UsedAddsOnePerPhoto(photos: seq<Photo>, sel: seq<nat>)
    requires ValidIndices(photos, sel) && Distinct(sel)
    ensures TotalUsage(Used(photos, sel)) == TotalUsage(photos) + |sel|
  {
    UsedPrefix(photos, sel, |photos|);
    assert Used(photos, sel)[..|photos|] == Used(photos, sel);
    assert photos[..|photos|] == photos;
    CountInAll(sel, |photos|);
  }

  /** The photos at the given positions, in that order. */
  function At(photos: seq<Photo>, idx: seq<nat>): (r: seq<Photo>)
    requires ValidIndices(photos, idx)
    ensures |r| == |idx|
  {
    seq(|idx|, k requires 0 <= k < |idx| => photos[idx[k]])
  }

  function KeepSelected(idx: seq<nat>, sel: seq<nat>): (r: seq<nat>)
    ensures forall i :: i in r <==> i in idx && i in sel
    ensures forall k :: 0 <= k < |r| ==> r[k] in idx
  {
    if idx == [] then []
    else (if idx[0] in sel then [idx[0]] else []) + KeepSelected(idx[1..], sel)
  }

  /** The selection the handler makes for a request with `count` (absent: 1). */
  function Selection(photos: seq<Photo>, projectId: nat, count: Option<int>): (sel: seq<nat>)
    ensures ValidIndices(photos, sel) && Distinct(sel)
    ensures sel == [] <==> ProjectIndices(photos, projectId) == []
    ensures forall i :: i in sel ==> photos[i].projectId == projectId
  {
    var cands := ProjectIndices(photos, projectId);
    var n := if count.Some? then count.value else 1;
    Lowest(photos, cands, EffectiveLimit(n, |cands|))
  }

  /** Answers 404 when the project has no photos; otherwise adds one use to
      each selected photo, leaves every other photo as it was, and returns the
      updated photos (listed here in store order; the database promises no
      order for `find`). */
  method UsePhotos(store: Store, projectId: nat, count: Option<int>) returns (r: Result<seq<Photo>>)
    modifies store
    ensures unchanged(store`projects) && store.nextProjectId == old(store.nextProjectId)
    ensures var sel := Selection(old(store.photos), projectId, count);
      (r == Err(NotFound) <==> sel == []) &&
      (r.Err? ==> store.photos == old(store.photos)) &&
      (r.Ok? ==>
        store.photos == Used(old(store.photos), sel) &&
        r.value == At(store.photos, KeepSelected(ProjectIndices(store.photos, projectId), sel)))
  {
    var sel := Selection(store.photos, projectId, count);
    if sel == [] {
      return Err(NotFound);
    }
    store.photos := Used(store.photos, sel);
    var ids := KeepSelected(ProjectIndices(store.photos, projectId), sel);
    r := Ok(At(store.photos, ids));
  }
}
