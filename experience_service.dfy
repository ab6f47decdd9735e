/**
 * A profile's work experiences: the request checks made before any setter
 * runs, the fields a request writes, and the ownership check of update and
 * delete. The repository is a table of stored rows.
 */
module ExperienceService {
  import opened Wrappers
  import opened Text
  import opened Entities
  import PM = ProfileMapper

  /** An `ExperienceRequest`; every field may be null. Dates are day numbers. */
  datatype ExperienceRequest = ExperienceRequest(
    title: Option<string>, company: Option<string>, location: Option<string>,
    startDate: Option<int>, endDate: Option<int>, current: Option<bool>,
    description: Option<string>, orderIndex: Option<int>)

  const PayloadRequired := Failure(BadRequest, "Experience payload is required")
  const TitleRequired := Failure(BadRequest, "Title is required")
  const EndBeforeStart := Failure(BadRequest, "End date cannot be before start date")
  const ExperienceNotFound := Failure(NotFound, "Experience not found")

  /** The checks of `applyRequest` and `validateDateRange`, in their order. */
  function RequestFailure(request: Option<ExperienceRequest>): (r: Option<Failure>)
    ensures r == Some(PayloadRequired) <==> request.None?
    ensures r == Some(TitleRequired) <==> request.Some? && !HasText(request.value.title)
    ensures r == Some(EndBeforeStart) <==> (request.Some? && HasText(request.value.title)
      && request.value.startDate.Some? && request.value.endDate.Some?
      && request.value.endDate.value < request.value.startDate.value)
    ensures r.None? ==> request.Some? && HasText(request.value.title)
  {
    if request.None? then Some(PayloadRequired)
    else if !HasText(request.value.title) then Some(TitleRequired)
    else if request.value.startDate.Some? && request.value.endDate.Some?
      && request.value.endDate.value < request.value.startDate.value then Some(EndBeforeStart)
    else None
  }

  /** A range that starts and ends on the same day, or has a missing end, is accepted. */
  lemma DateRangeAccepted(request: ExperienceRequest)
    requires HasText(request.title)
    requires request.startDate.None? || request.endDate.None? || request.startDate == request.endDate
    ensures RequestFailure(Some(request)).None?
  {
  }

  /**
   * The experience after the setters of `applyRequest`: title trimmed, text
   * fields trimmed to null, both dates as given, `current` true only for an
   * explicit true, `orderIndex` only when given; owner and id kept.
   */
  function Applied(d: ExperienceData, req: ExperienceRequest): (r: ExperienceData)
    requires req.title.Some?
    ensures r.id == d.id && r.profile == d.profile
    ensures r.title == Some(JavaTrim(req.title.value))
    ensures r.company == TrimToNull(req.company) && r.location == TrimToNull(req.location)
    ensures r.description == TrimToNull(req.description)
    ensures r.startDate == req.startDate && r.endDate == req.endDate
    ensures r.current <==> req.current == Some(true)
    ensures r.orderIndex == (if req.orderIndex.Some? then req.orderIndex else d.orderIndex)
  {
    d.(title := Some(JavaTrim(req.title.value)),
       company := TrimToNull(req.company),
       location := TrimToNull(req.location),
       startDate := req.startDate,
       endDate := req.endDate,
       current := req.current == Some(true),
       description := TrimToNull(req.description),
       orderIndex := if req.orderIndex.Some? then req.orderIndex else d.orderIndex)
  }

  /** Applying the same request twice is the same as applying it once. */
  lemma AppliedIdempotent(d: ExperienceData, req: ExperienceRequest)
    requires req.title.Some?
    ensures Applied(Applied(d, req), req) == Applied(d, req)
  {
  }

  /** What a request writes does not depend on the stored fields, except an absent `orderIndex`. */
  lemma AppliedOverwrites(d: ExperienceData, e: ExperienceData, req: ExperienceRequest)
    requires req.title.Some? && d.id == e.id && d.profile == e.profile
    requires req.orderIndex.Some? || d.orderIndex == e.orderIndex
    ensures Applied(d, req) == Applied(e, req)
  {
  }

  /** `applyRequest`: either a failure and no setter run, or all the setters. */
  method ApplyRequest(e: Experience, request: Option<ExperienceRequest>) returns (failure: Option<Failure>)
    modifies e
    ensures failure == RequestFailure(request)
    ensures failure.Some? ==> e.Data() == old(e.Data())
    ensures failure.None? ==> e.Data() == Applied(old(e.Data()), request.value)
  {
    failure := RequestFailure(request);
    if failure.Some? {
      return;
    }
    var req := request.value;
    e.title := Some(JavaTrim(req.title.value));
    e.company := TrimToNull(req.company);
    e.location := TrimToNull(req.location);
    e.startDate := req.startDate;
    e.endDate := req.endDate;
    e.current := req.current == Some(true);
    e.description := TrimToNull(req.description);
    if req.orderIndex.Some? {
      e.orderIndex := req.orderIndex;
    }
  }

  /** An entity loaded from `d` with the request applied; `d` itself is returned on failure. */
  method Edited(d: ExperienceData, request: Option<ExperienceRequest>) returns (failure: Option<Failure>, d': ExperienceData)
    ensures failure == RequestFailure(request)
    ensures failure.Some? ==> d' == d
    ensures failure.None? ==> d' == Applied(d, request.value)
  {
    var e := new Experience(d);
    failure := ApplyRequest(e, request);
    d' := e.Data();
  }

  /** `findByIdAndProfileId`: the row with that id, if the profile owns it. */
  function FindOwned(rows: seq<ExperienceData>, id: int, profile: int): (r: Option<nat>)
    ensures r.Some? ==> r.value < |rows| && rows[r.value].id == Some(id) && rows[r.value].profile == Some(profile)
    ensures r.None? ==> forall j :: 0 <= j < |rows| ==> !(rows[j].id == Some(id) && rows[j].profile == Some(profile))
  {
    if rows == [] then None
    else if rows[0].id == Some(id) && rows[0].profile == Some(profile) then Some(0)
    else
      var r := FindOwned(rows[1..], id, profile);
      if r.Some? then Some(r.value + 1) else None
  }

  /** `findByProfileIdOrderByOrderIndexAsc` before ordering: the profile's rows in table order. */
  function OfProfile(rows: seq<ExperienceData>, profile: int): (r: seq<ExperienceData>)
    ensures forall e :: e in r <==> e in rows && e.profile == Some(profile)
  {
    if rows == [] then []
    else (if rows[0].profile == Some(profile) then [rows[0]] else []) + OfProfile(rows[1..], profile)
  }

  /** Stored ids are present and distinct. */
  ghost predicate DistinctIds(rows: seq<ExperienceData>)
  {
    (forall i :: 0 <= i < |rows| ==> rows[i].id.Some?)
    && (forall i, j :: 0 <= i < j < |rows| ==> rows[i].id != rows[j].id)
  }

  class Experiences {
    var rows: seq<ExperienceData>
    var nextId: int

    ghost predicate Valid()
      reads this
    {
      DistinctIds(rows) && forall i :: 0 <= i < |rows| ==> rows[i].id.value < nextId
    }

    constructor ()
      ensures Valid() && rows == []
    {
      rows, nextId := [], 1;
    }

    /** `list`: the profile's experiences in the order of `toExperienceDtos`. */
    method List(profile: int) returns (r: seq<PM.ExperienceDto>)
      ensures r == PM.ToExperienceDtos(OfProfile(rows, profile))
    {
      r := PM.ToExperienceDtos(OfProfile(rows, profile));
    }

    /** `create`: a new experience of the profile, saved only when the request passes. */
    method Create(profile: int, request: Option<ExperienceRequest>) returns (r: Result<PM.ExperienceDto, Failure>)
      requires Valid()
      modifies this
      ensures Valid()
      ensures RequestFailure(request).Some? ==> r == Err(RequestFailure(request).value) && rows == old(rows)
      ensures RequestFailure(request).None? ==> (
        var saved := Applied(NewExperience.(profile := Some(profile), id := Some(old(nextId))), request.value);
        rows == old(rows) + [saved] && r == Ok(PM.ToExperienceDto(saved)))
    {
      // The id is the one `save` assigns; applying the request keeps it.
      var failure, saved := Edited(NewExperience.(profile := Some(profile), id := Some(nextId)), request);
      if failure.Some? {
        return Err(failure.value);
      }
      AppendKeepsDistinct(rows, saved, nextId);
      rows := rows + [saved];
      nextId := nextId + 1;
      r := Ok(PM.ToExperienceDto(saved));
    }

    /** `update`: an id the profile does not own is "Experience not found"; nothing changes on failure. */
    method Update(profile: int, id: int, request: Option<ExperienceRequest>) returns (r: Result<PM.ExperienceDto, Failure>)
      requires Valid()
      modifies this
      ensures Valid()
      ensures FindOwned(old(rows), id, profile).None? ==> r == Err(ExperienceNotFound) && rows == old(rows)
      ensures FindOwned(old(rows), id, profile).Some? && RequestFailure(request).Some? ==>
        r == Err(RequestFailure(request).value) && rows == old(rows)
      ensures FindOwned(old(rows), id, profile).Some? && RequestFailure(request).None? ==> (
        var i := FindOwned(old(rows), id, profile).value;
        rows == old(rows)[i := Applied(old(rows)[i], request.value)]
        && r == Ok(PM.ToExperienceDto(rows[i])))
    {
      var found := FindOwned(rows, id, profile);
      if found.None? {
        return Err(ExperienceNotFound);
      }
      var i := found.value;
      var failure, edited := Edited(rows[i], request);
      if failure.Some? {
        return Err(failure.value);
      }
      UpdateKeepsDistinct(rows, i, edited, nextId);
      rows := rows[i := edited];
      r := Ok(PM.ToExperienceDto(edited));
    }

    /** `delete`: an id the profile does not own is "Experience not found" and nothing changes. */
    method Delete(profile: int, id: int) returns (failure: Option<Failure>)
      requires Valid()
      modifies this
      ensures Valid()
      ensures FindOwned(old(rows), id, profile).None? ==> failure == Some(ExperienceNotFound) && rows == old(rows)
      ensures FindOwned(old(rows), id, profile).Some? ==>
        failure.None? && rows == Without(old(rows), FindOwned(old(rows), id, profile).value)
    {
      var found := FindOwned(rows, id, profile);
      if found.None? {
        return Some(ExperienceNotFound);
      }
      ghost var before := rows;
      rows := Without(rows, found.value);
      WithoutKeepsDistinct(before, found.value, nextId);
      failure := None;
    }
  }

  lemma AppendKeepsDistinct(rows: seq<ExperienceData>, x: ExperienceData, bound: int)
    requires DistinctIds(rows) && (forall k :: 0 <= k < |rows| ==> rows[k].id.value < bound) && x.id == Some(bound)
    ensures DistinctIds(rows + [x]) && forall k :: 0 <= k < |rows + [x]| ==> (rows + [x])[k].id.value < bound + 1
  {
    var r := rows + [x];
    forall a, b | 0 <= a < b < |r| ensures r[a].id != r[b].id {
      assert r[a] == rows[a];
    }
  }

  /** Replacing a row by one with the same id keeps the ids distinct and below the bound. */
  lemma UpdateKeepsDistinct(rows: seq<ExperienceData>, i: nat, x: ExperienceData, bound: int)
    requires i < |rows| && DistinctIds(rows) && (forall k :: 0 <= k < |rows| ==> rows[k].id.value < bound)
    requires x.id == rows[i].id
    ensures DistinctIds(rows[i := x]) && IdsBelow(rows[i := x], bound)
  {
    var r := rows[i := x];
    assert forall k :: 0 <= k < |rows| ==> r[k].id == rows[k].id;
  }

  /** Every stored id is below the bound. */
  ghost predicate IdsBelow(rows: seq<ExperienceData>, bound: int)
    requires forall k :: 0 <= k < |rows| ==> rows[k].id.Some?
  {
    forall k :: 0 <= k < |rows| ==> rows[k].id.value < bound
  }

  lemma WithoutKeepsDistinct(rows: seq<ExperienceData>, i: nat, bound: int)
    requires i < |rows| && DistinctIds(rows) && forall k :: 0 <= k < |rows| ==> rows[k].id.value < bound
    ensures DistinctIds(Without(rows, i)) && forall k :: 0 <= k < |Without(rows, i)| ==> Without(rows, i)[k].id.value < bound
  {
    var r := Without(rows, i);
    assert r == rows[..i] + rows[i + 1..];
    forall a, b | 0 <= a < b < |r| ensures r[a].id != r[b].id {
      var a' := if a < i then a else a + 1;
      var b' := if b < i then b else b + 1;
      assert r[a] == rows[a'] && r[b] == rows[b'] && a' < b';
    }
    forall k | 0 <= k < |r| ensures r[k].id.Some? && r[k].id.value < bound {
      assert r[k] == rows[if k < i then k else k + 1];
    }
  }

  /** Update and delete touch only a row the profile owns: every other row is left as it was. */
  lemma OwnershipGuard(rows: seq<ExperienceData>, id: int, profile: int, req: ExperienceRequest, k: nat)
    requires req.title.Some? && k < |rows| && FindOwned(rows, id, profile).Some?
    requires rows[k].profile != Some(profile) || rows[k].id != Some(id)
    ensures var i := FindOwned(rows, id, profile).value;
      rows[i := Applied(rows[i], req)][k] == rows[k]
  {
  }
}
