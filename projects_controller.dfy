/**
 * The conditional project listing: the listing of `getProjects` with an ETag
 * built from each project's id, title and owner slug, answered with 304 when
 * the client's If-None-Match equals it. The SHA-1 digest is a parameter; it
 * is `None` when the algorithm is unavailable.
 */
module ProjectsController {
  import opened Wrappers
  import opened Text
  import PM = ProfileMapper
  import PS = ProjectService

  const MaxAgeSeconds := 60

  /** Java string concatenation of a possibly null string. */
  function Concat(s: Option<string>): string
  {
    if s.None? then "null" else s.value
  }

  /** One project's part of the signature: `id|title|ownerSlug`, id 0 and owner slug "" by default. */
  function Entry(p: PM.ProjectDto): string
  {
    IntToString(p.id.GetOr(0)) + "|" + Concat(p.title) + "|"
      + (if p.owner.Some? then Concat(p.owner.value.slug) else "")
  }

  function Entries(ps: seq<PM.ProjectDto>): (r: seq<string>)
    ensures |r| == |ps| && forall i :: 0 <= i < |ps| ==> r[i] == Entry(ps[i])
  {
    if ps == [] then [] else [Entry(ps[0])] + Entries(ps[1..])
  }

  /** The entries joined with `::`. */
  function Signature(ps: seq<PM.ProjectDto>): string
  {
    Join(Entries(ps), "::")
  }

  function HexDigit(n: bv8): (c: char)
    requires n < 16
    ensures '0' <= c <= '9' || 'a' <= c <= 'f'
  {
    if n < 10 then ('0' as int + n as int) as char else ('a' as int + n as int - 10) as char
  }

  /** `String.format("%02x", b)` for every byte, concatenated. */
  function Hex(bytes: seq<bv8>): (r: string)
    ensures |r| == 2 * |bytes|
    ensures forall i :: 0 <= i < |r| ==> '0' <= r[i] <= '9' || 'a' <= r[i] <= 'f'
  {
    if bytes == [] then []
    else [HexDigit(bytes[0] >> 4), HexDigit(bytes[0] & 15)] + Hex(bytes[1..])
  }

  /** `generateEtag`: the quoted hex digest of the signature, or its quoted `hashCode`. */
  function GenerateEtag(ps: seq<PM.ProjectDto>, sha1: string -> Option<seq<bv8>>): string
  {
    var signature := Signature(ps);
    match sha1(signature)
    case Some(hash) => "\"" + Hex(hash) + "\""
    case None => "\"" + IntToString(ToInt32(Hash31(Utf16(signature)))) + "\""
  }

  /** With a 20-byte digest the ETag is 40 lowercase hex digits between quotes. */
  lemma EtagShape(ps: seq<PM.ProjectDto>, sha1: string -> Option<seq<bv8>>)
    requires sha1(Signature(ps)).Some? && |sha1(Signature(ps)).value| == 20
    ensures var e := GenerateEtag(ps, sha1);
      |e| == 42 && e[0] == '"' && e[41] == '"'
      && forall i :: 1 <= i < 41 ==> '0' <= e[i] <= '9' || 'a' <= e[i] <= 'f'
  {
    var e := GenerateEtag(ps, sha1);
    var h := Hex(sha1(Signature(ps)).value);
    assert e == "\"" + h + "\"";
    assert forall i :: 1 <= i < 41 ==> e[i] == h[i - 1];
  }

  /** Lists with the same entries have the same signature, and so the same ETag. */
  lemma EtagFollowsEntries(a: seq<PM.ProjectDto>, b: seq<PM.ProjectDto>, sha1: string -> Option<seq<bv8>>)
    requires |a| == |b| && forall i :: 0 <= i < |a| ==> Entry(a[i]) == Entry(b[i])
    ensures Signature(a) == Signature(b)
    ensures GenerateEtag(a, sha1) == GenerateEtag(b, sha1)
  {
    assert Entries(a) == Entries(b);
  }

  /**
   * The ETag covers only id, title and owner slug: projects that differ in
   * any other field, such as their description or links, get the same ETag.
   */
  lemma EtagIgnoresOtherFields(a: seq<PM.ProjectDto>, b: seq<PM.ProjectDto>, sha1: string -> Option<seq<bv8>>)
    requires |a| == |b|
    requires forall i :: 0 <= i < |a| ==> (a[i].id == b[i].id && a[i].title == b[i].title
      && (a[i].owner.Some? <==> b[i].owner.Some?)
      && (a[i].owner.Some? ==> a[i].owner.value.slug == b[i].owner.value.slug))
    ensures GenerateEtag(a, sha1) == GenerateEtag(b, sha1)
  {
    EtagFollowsEntries(a, b, sha1);
  }

  /** A missing id reads as 0 and a missing title as the text "null". */
  lemma EntryDefaults(p: PM.ProjectDto)
    ensures Entry(p.(id := None)) == Entry(p.(id := Some(0)))
    ensures Entry(p.(title := None)) == Entry(p.(title := Some("null")))
  {
  }

  datatype Response =
    | NotModified(etag: string, maxAge: int)
    | Fresh(etag: string, maxAge: int, isPublic: bool, body: seq<PM.ProjectDto>)

  /** The conditional reply of `all` for a listing and its ETag. */
  function Conditional(ps: seq<PM.ProjectDto>, etag: string, ifNoneMatch: Option<string>): (r: Response)
    ensures r.NotModified? <==> ifNoneMatch == Some(etag)
    ensures r.etag == etag && r.maxAge == MaxAgeSeconds
    ensures r.Fresh? ==> r.body == ps && r.isPublic
  {
    if ifNoneMatch.Some? && ifNoneMatch.value == etag then NotModified(etag, MaxAgeSeconds)
    else Fresh(etag, MaxAgeSeconds, true, ps)
  }

  /** A client that sends back the ETag of an unchanged listing gets 304. */
  lemma RevalidationHits(ps: seq<PM.ProjectDto>, qs: seq<PM.ProjectDto>, sha1: string -> Option<seq<bv8>>)
    requires Signature(ps) == Signature(qs)
    ensures Conditional(qs, GenerateEtag(qs, sha1), Some(GenerateEtag(ps, sha1))).NotModified?
  {
  }

  /** `all`: the service's listing for the member slug, answered conditionally. */
  method All(service: PS.Projects, memberSlug: Option<string>, ifNoneMatch: Option<string>,
             sha1: string -> Option<seq<bv8>>) returns (r: Response)
    requires service.Valid()
    modifies service
    ensures service.Valid() && service.rows == old(service.rows)
    ensures var ps := PS.Listing(service.rows, memberSlug);
      r == Conditional(ps, GenerateEtag(ps, sha1), ifNoneMatch)
  {
    var projects := service.GetProjects(memberSlug);
    var eTag := GenerateEtag(projects, sha1);
    if ifNoneMatch.Some? && ifNoneMatch.value == eTag {
      return NotModified(eTag, MaxAgeSeconds);
    }
    r := Fresh(eTag, MaxAgeSeconds, true, projects);
  }
}
