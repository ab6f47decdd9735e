/**
 * Projects: the request checks made before any setter runs, the fields a
 * request writes, the ownership check of update and delete, and the listing
 * by member slug or of every project, with its result cache.
 */
module ProjectService {
  import opened Wrappers
  import opened Text
  import opened Entities
  import Sorting
  import PM = ProfileMapper

  /** A `ProjectRequest`; every field may be null. */
  datatype ProjectRequest = ProjectRequest(
    title: Option<string>, summary: Option<string>, description: Option<string>,
    tags: Option<string>, repoUrl: Option<string>, liveUrl: Option<string>, imageUrl: Option<string>)

  const PayloadRequired := Failure(BadRequest, "Project payload is required")
  const TitleRequired := Failure(BadRequest, "Title is required")
  const ProjectNotFound := Failure(NotFound, "Project not found")

  /** The checks of `applyRequest`, in their order. */
  function RequestFailure(request: Option<ProjectRequest>): (r: Option<Failure>)
    ensures r == Some(PayloadRequired) <==> request.None?
    ensures r == Some(TitleRequired) <==> request.Some? && !HasText(request.value.title)
    ensures r.None? <==> request.Some? && HasText(request.value.title)
  {
    if request.None? then Some(PayloadRequired)
    else if !HasText(request.value.title) then Some(TitleRequired)
    else None
  }

  /** The project after the setters of `applyRequest`. */
  function Applied(d: ProjectData, req: ProjectRequest): ProjectData
    requires req.title.Some?
  {
    d.(title := Some(JavaTrim(req.title.value)), summary := TrimToNull(req.summary),
       description := TrimToNull(req.description), tags := TrimToNull(req.tags),
       repoUrl := TrimToNull(req.repoUrl), liveUrl := TrimToNull(req.liveUrl),
       imageUrl := TrimToNull(req.imageUrl))
  }

  /** Title trimmed, the other request fields trimmed to null; owner, id and creation time kept. */
  lemma AppliedFields(d: ProjectData, req: ProjectRequest)
    requires req.title.Some?
    ensures var r := Applied(d, req);
      r.id == d.id && r.owner == d.owner && r.createdAt == d.createdAt
      && r.title == Some(JavaTrim(req.title.value))
      && r.summary == TrimToNull(req.summary) && r.description == TrimToNull(req.description)
      && r.tags == TrimToNull(req.tags) && r.repoUrl == TrimToNull(req.repoUrl)
      && r.liveUrl == TrimToNull(req.liveUrl) && r.imageUrl == TrimToNull(req.imageUrl)
  {
  }

  /** A request overwrites every field it covers, whatever was stored: applying it twice is applying it once. */
  lemma AppliedOverwrites(d: ProjectData, e: ProjectData, req: ProjectRequest)
    requires req.title.Some? && d.id == e.id && d.owner == e.owner && d.createdAt == e.createdAt
    ensures Applied(d, req) == Applied(e, req)
    ensures Applied(Applied(d, req), req) == Applied(d, req)
  {
  }

  /** `applyRequest`: either a failure and no setter run, or all the setters. */
  method ApplyRequest(p: Project, request: Option<ProjectRequest>) returns (failure: Option<Failure>)
    modifies p
    ensures failure == RequestFailure(request)
    ensures failure.Some? ==> p.Data() == old(p.Data())
    ensures failure.None? ==> p.Data() == Applied(old(p.Data()), request.value)
  {
    failure := RequestFailure(request);
    if failure.Some? {
      return;
    }
    var req := request.value;
    p.title := Some(JavaTrim(req.title.value));
    p.summary := TrimToNull(req.summary);
    p.description := TrimToNull(req.description);
    p.tags := TrimToNull(req.tags);
    p.repoUrl := TrimToNull(req.repoUrl);
    p.liveUrl := TrimToNull(req.liveUrl);
    p.imageUrl := TrimToNull(req.imageUrl);
  }

  /** An entity loaded from `d` with the request applied; `d` itself is returned on failure. */
  method Edited(d: ProjectData, request: Option<ProjectRequest>) returns (failure: Option<Failure>, d': ProjectData)
    ensures failure == RequestFailure(request)
    ensures failure.Some? ==> d' == d
    ensures failure.None? ==> d' == Applied(d, request.value)
  {
    var p := new Project(d);
    failure := ApplyRequest(p, request);
    d' := p.Data();
  }

  /** The project is owned by the profile with id `owner`; a profile without an id owns nothing. */
  predicate OwnedBy(p: ProjectData, owner: Option<int>)
  {
    owner.Some? && p.owner.Some? && p.owner.value.id == owner
  }

  /** `findByIdAndOwnerId`. */
  function FindOwned(rows: seq<ProjectData>, id: int, owner: Option<int>): (r: Option<nat>)
    ensures r.Some? ==> r.value < |rows| && rows[r.value].id == Some(id) && OwnedBy(rows[r.value], owner)
    ensures r.None? ==> forall j :: 0 <= j < |rows| ==> !(rows[j].id == Some(id) && OwnedBy(rows[j], owner))
  {
    if rows == [] then None
    else if rows[0].id == Some(id) && OwnedBy(rows[0], owner) then Some(0)
    else
      var r := FindOwned(rows[1..], id, owner);
      if r.Some? then Some(r.value + 1) else None
  }

  /** The rows a predicate keeps, in table order. */
  function Select(rows: seq<ProjectData>, keep: ProjectData -> bool): (r: seq<ProjectData>)
    ensures |r| <= |rows|
    ensures forall p :: p in r <==> p in rows && keep(p)
    ensures (forall i :: 0 <= i < |rows| ==> !keep(rows[i])) ==> r == []
  {
    if rows == [] then []
    else (if keep(rows[0]) then [rows[0]] else []) + Select(rows[1..], keep)
  }

  predicate HasOwnerSlug(slug: string, p: ProjectData)
  {
    p.owner.Some? && p.owner.value.slug == Some(slug)
  }

  predicate HasOwner(owner: Option<int>, p: ProjectData)
  {
    OwnedBy(p, owner)
  }

  /** `ORDER BY title ASC`: character-code order, a null title last. */
  predicate TitleBefore(a: ProjectData, b: ProjectData)
  {
    match (a.title, b.title)
    case (Some(x), Some(y)) => StrLe(x, y)
    case (Some(_), None) => true
    case (None, Some(_)) => false
    case (None, None) => true
  }

  /** `ORDER BY createdAt DESC`. */
  predicate NewerFirst(a: ProjectData, b: ProjectData)
  {
    a.createdAt >= b.createdAt
  }

  lemma TitleBeforeIsTotalPreorder()
    ensures Sorting.TotalPreorder(TitleBefore)
  {
    forall a, b ensures TitleBefore(a, b) || TitleBefore(b, a) {
      if a.title.Some? && b.title.Some? {
        StrLeTotal(a.title.value, b.title.value);
      }
    }
    forall a, b, c | TitleBefore(a, b) && TitleBefore(b, c) ensures TitleBefore(a, c) {
      if a.title.Some? && b.title.Some? && c.title.Some? {
        StrLeTrans(a.title.value, b.title.value, c.title.value);
      }
    }
  }

  /** `findByOwnerSlugOrderByTitleAsc`. */
  function ByOwnerSlug(rows: seq<ProjectData>, slug: string): seq<ProjectData>
  {
    Sorting.Sort(Select(rows, p => HasOwnerSlug(slug, p)), TitleBefore)
  }

  /** `findByOwnerIdOrderByCreatedAtDesc`. */
  function ByOwnerNewestFirst(rows: seq<ProjectData>, owner: Option<int>): seq<ProjectData>
  {
    Sorting.Sort(Select(rows, p => HasOwner(owner, p)), NewerFirst)
  }

  /** What `getProjects` lists: the member's projects by title when the slug has text, otherwise every project. */
  function Listing(rows: seq<ProjectData>, slug: Option<string>): seq<PM.ProjectDto>
  {
    if HasText(slug) then PM.ToProjectDtos(ByOwnerSlug(rows, slug.value)) else PM.ToProjectDtos(rows)
  }

  /**
   * The member listing holds exactly that member's projects, each once per
   * stored row, in title order; the unfiltered listing is the whole table.
   */
  lemma ListingMeaning(rows: seq<ProjectData>, slug: Option<string>)
    ensures !HasText(slug) ==> Listing(rows, slug) == PM.ToProjectDtos(rows)
    ensures HasText(slug) ==> (
      var r := ByOwnerSlug(rows, slug.value);
      Listing(rows, slug) == PM.ToProjectDtos(r)
      && (forall p :: p in r <==> p in rows && HasOwnerSlug(slug.value, p))
      && multiset(r) == multiset(Select(rows, p => HasOwnerSlug(slug.value, p)))
      && Sorting.Sorted(r, TitleBefore))
  {
    if HasText(slug) {
      var sel := Select(rows, p => HasOwnerSlug(slug.value, p));
      TitleBeforeIsTotalPreorder();
      Sorting.SortSorted(sel, TitleBefore);
      forall p ensures p in ByOwnerSlug(rows, slug.value) <==> p in sel {
        assert multiset(ByOwnerSlug(rows, slug.value)) == multiset(sel);
        assert p in multiset(ByOwnerSlug(rows, slug.value)) <==> p in multiset(sel);
      }
    }
  }

  /** `listOwned`: the profile's projects, newest first; a profile without an id has none. */
  lemma ListOwnedMeaning(rows: seq<ProjectData>, owner: Option<int>)
    ensures var r := ByOwnerNewestFirst(rows, owner);
      (forall i, j :: 0 <= i < j < |r| ==> r[i].createdAt >= r[j].createdAt)
      && (forall p :: p in r <==> p in rows && OwnedBy(p, owner))
      && (owner.None? ==> r == [])
  {
    var sel := Select(rows, p => HasOwner(owner, p));
    Sorting.SortSorted(sel, NewerFirst);
    forall p ensures p in ByOwnerNewestFirst(rows, owner) <==> p in sel {
      assert multiset(ByOwnerNewestFirst(rows, owner)) == multiset(sel);
      assert p in multiset(ByOwnerNewestFirst(rows, owner)) <==> p in multiset(sel);
    }
  }

  // ---------------------------------------------------------------------------
  // The result cache of getProjects

  /** The cache key as written: the slug when it has text, otherwise the literal `ALL`. */
  function CacheKeyAsWritten(slug: Option<string>): string
  {
    if HasText(slug) then slug.value else "ALL"
  }

  /**
   * The slug `ALL` shares its key with the unfiltered listing, though the two
   * listings differ: whichever is cached first is returned for both.
   */
  lemma CacheKeyAsWrittenCollides()
    ensures var owner := ProfileData(Some(1), Some(1), Some("jai-ganesh"), None, None, None, None, None, None, None, None, None);
      var rows := [ProjectData(Some(1), Some(owner), Some("Portfolio"), None, None, None, None, None, None, 0)];
      CacheKeyAsWritten(Some("ALL")) == CacheKeyAsWritten(None)
      && Listing(rows, Some("ALL")) != Listing(rows, None)
  {
    var owner := ProfileData(Some(1), Some(1), Some("jai-ganesh"), None, None, None, None, None, None, None, None, None);
    var rows := [ProjectData(Some(1), Some(owner), Some("Portfolio"), None, None, None, None, None, None, 0)];
    assert HasText(Some("ALL")) by {
      assert !IsJavaWhitespace("ALL"[0]);
    }
    assert "jai-ganesh" != "ALL";
    assert Select(rows, p => HasOwnerSlug("ALL", p)) == [] by {
      assert rows[1..] == [];
    }
    assert |Listing(rows, None)| == 1;
  }

  /** A key that keeps "no slug" apart from every slug. */
  function CacheKey(slug: Option<string>): Option<string>
  {
    if HasText(slug) then slug else None
  }

  /** With it, equal keys always mean equal listings. */
  lemma CacheKeySound(rows: seq<ProjectData>, a: Option<string>, b: Option<string>)
    requires CacheKey(a) == CacheKey(b)
    ensures Listing(rows, a) == Listing(rows, b)
  {
  }

  /** Every cached listing is the listing its key stands for. */
  ghost predicate CacheCoherent(cache: map<Option<string>, seq<PM.ProjectDto>>, rows: seq<ProjectData>)
  {
    forall k :: k in cache ==> cache[k] == Listing(rows, k)
  }

  /** Stored ids are present and distinct. */
  ghost predicate DistinctIds(rows: seq<ProjectData>)
  {
    (forall i :: 0 <= i < |rows| ==> rows[i].id.Some?)
    && (forall i, j :: 0 <= i < j < |rows| ==> rows[i].id != rows[j].id)
  }

  lemma AppendKeepsDistinct(rows: seq<ProjectData>, x: ProjectData, bound: int)
    requires DistinctIds(rows) && (forall k :: 0 <= k < |rows| ==> rows[k].id.value < bound) && x.id == Some(bound)
    ensures DistinctIds(rows + [x]) && forall k :: 0 <= k < |rows + [x]| ==> (rows + [x])[k].id.value < bound + 1
  {
    var r := rows + [x];
    forall a, b | 0 <= a < b < |r| ensures r[a].id != r[b].id {
      assert r[a] == rows[a];
    }
  }

  /** Replacing a row by one with the same id keeps the ids distinct and below the bound. */
  lemma UpdateKeepsDistinct(rows: seq<ProjectData>, i: nat, x: ProjectData, bound: int)
    requires i < |rows| && DistinctIds(rows) && (forall k :: 0 <= k < |rows| ==> rows[k].id.value < bound)
    requires x.id == rows[i].id
    ensures DistinctIds(rows[i := x]) && IdsBelow(rows[i := x], bound)
  {
    var r := rows[i := x];
    assert forall k :: 0 <= k < |rows| ==> r[k].id == rows[k].id;
  }

  /** Every stored id is below the bound. */
  ghost predicate IdsBelow(rows: seq<ProjectData>, bound: int)
    requires forall k :: 0 <= k < |rows| ==> rows[k].id.Some?
  {
    forall k :: 0 <= k < |rows| ==> rows[k].id.value < bound
  }

  lemma WithoutKeepsDistinct(rows: seq<ProjectData>, i: nat, bound: int)
    requires i < |rows| && DistinctIds(rows) && forall k :: 0 <= k < |rows| ==> rows[k].id.value < bound
    ensures DistinctIds(Without(rows, i)) && forall k :: 0 <= k < |Without(rows, i)| ==> Without(rows, i)[k].id.value < bound
  {
    var r := Without(rows, i);
    assert r == rows[..i] + rows[i + 1..];
    forall a, b | 0 <= a < b < |r| ensures r[a].id != r[b].id {
      var a' := if a < i then a else a + 1;
      var b' := if b < i then b else b + 1;
      assert r[a] == rows[a'] && r[b] == rows[b'] && a' < b';
    }
    forall k | 0 <= k < |r| ensures r[k].id.Some? && r[k].id.value < bound {
      assert r[k] == rows[if k < i then k else k + 1];
    }
  }

  class Projects {
    var rows: seq<ProjectData>
    var nextId: int
    /** The `projects` cache, keyed by `CacheKey`. */
    var cache: map<Option<string>, seq<PM.ProjectDto>>

    ghost predicate Valid()
      reads this
    {
      DistinctIds(rows) && (forall i :: 0 <= i < |rows| ==> rows[i].id.value < nextId)
      && CacheCoherent(cache, rows)
      && forall k :: k in cache ==> CacheKey(k) == k
    }

    constructor ()
      ensures Valid() && rows == [] && cache == map[]
    {
      rows, nextId, cache := [], 1, map[];
    }

    /** `getProjects`: a cached listing when there is one, else the query, then cached. */
    method GetProjects(slug: Option<string>) returns (r: seq<PM.ProjectDto>)
      requires Valid()
      modifies this
      ensures Valid() && rows == old(rows)
      ensures r == Listing(rows, slug)
    {
      var key := CacheKey(slug);
      CacheKeySound(rows, slug, key);
      if key in cache {
        r := cache[key];
      } else {
        r := Listing(rows, slug);
        cache := cache[key := r];
      }
    }

    /** `listOwned`: the profile's projects, newest first. */
    method ListOwned(owner: Option<int>) returns (r: seq<PM.ProjectDto>)
      ensures r == PM.ToProjectDtos(ByOwnerNewestFirst(rows, owner))
    {
      r := PM.ToProjectDtos(ByOwnerNewestFirst(rows, owner));
    }

    /** `createProject`: a new project of the profile, saved only when the request passes; success clears the cache. */
    method CreateProject(profile: ProfileData, request: Option<ProjectRequest>, now: int)
      returns (r: Result<PM.ProjectDto, Failure>)
      requires Valid()
      modifies this
      ensures Valid()
      ensures RequestFailure(request).Some? ==> r == Err(RequestFailure(request).value) && rows == old(rows)
      ensures RequestFailure(request).None? ==> (
        var saved := Applied(ProjectData(Some(old(nextId)), Some(profile), None, None, None, None, None, None, None, now), request.value);
        rows == old(rows) + [saved] && r == Ok(PM.ToProjectDto(saved)))
    {
      // The id is the one `save` assigns; applying the request keeps it.
      var failure, saved := Edited(ProjectData(Some(nextId), Some(profile), None, None, None, None, None, None, None, now), request);
      if failure.Some? {
        return Err(failure.value);
      }
      AppendKeepsDistinct(rows, saved, nextId);
      rows := rows + [saved];
      nextId := nextId + 1;
      cache := map[];
      r := Ok(PM.ToProjectDto(saved));
    }

    /** `updateProject`: a project the profile does not own is "Project not found"; nothing changes on failure. */
    method UpdateProject(owner: Option<int>, id: int, request: Option<ProjectRequest>)
      returns (r: Result<PM.ProjectDto, Failure>)
      requires Valid()
      modifies this
      ensures Valid()
      ensures FindOwned(old(rows), id, owner).None? ==> r == Err(ProjectNotFound) && rows == old(rows)
      ensures FindOwned(old(rows), id, owner).Some? && RequestFailure(request).Some? ==>
        r == Err(RequestFailure(request).value) && rows == old(rows)
      ensures FindOwned(old(rows), id, owner).Some? && RequestFailure(request).None? ==> (
        var i := FindOwned(old(rows), id, owner).value;
        rows == old(rows)[i := Applied(old(rows)[i], request.value)]
        && r == Ok(PM.ToProjectDto(rows[i])))
    {
      var found := FindOwned(rows, id, owner);
      if found.None? {
        return Err(ProjectNotFound);
      }
      var i := found.value;
      var failure, edited := Edited(rows[i], request);
      if failure.Some? {
        return Err(failure.value);
      }
      UpdateKeepsDistinct(rows, i, edited, nextId);
      rows := rows[i := edited];
      cache := map[];
      r := Ok(PM.ToProjectDto(edited));
    }

    /** `deleteProject`: a project the profile does not own is "Project not found" and nothing changes. */
    method DeleteProject(owner: Option<int>, id: int) returns (failure: Option<Failure>)
      requires Valid()
      modifies this
      ensures Valid()
      ensures FindOwned(old(rows), id, owner).None? ==> failure == Some(ProjectNotFound) && rows == old(rows)
      ensures FindOwned(old(rows), id, owner).Some? ==>
        failure.None? && rows == Without(old(rows), FindOwned(old(rows), id, owner).value)
    {
      var found := FindOwned(rows, id, owner);
      if found.None? {
        return Some(ProjectNotFound);
      }
      cache := map[];
      ghost var before := rows;
      rows := Without(rows, found.value);
      WithoutKeepsDistinct(before, found.value, nextId);
      failure := None;
    }
  }
}
