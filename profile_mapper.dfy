/**
 * The mapping from entities to the response records: the eleven-field profile
 * summary, experience and project records, the detail page, and the order in
 * which a profile's experiences are listed.
 */
module ProfileMapper {
  import opened Wrappers
  import opened Entities
  import Sorting

  datatype ProfileSummary = ProfileSummary(
    id: Option<int>, slug: Option<string>, name: Option<string>, role: Option<string>,
    bio: Option<string>, photoUrl: Option<string>, githubUrl: Option<string>,
    linkedinUrl: Option<string>, twitterUrl: Option<string>, websiteUrl: Option<string>,
    location: Option<string>)

  datatype ExperienceDto = ExperienceDto(
    id: Option<int>, title: Option<string>, company: Option<string>, location: Option<string>,
    startDate: Option<int>, endDate: Option<int>, current: bool, description: Option<string>,
    orderIndex: Option<int>)

  datatype ProjectDto = ProjectDto(
    id: Option<int>, title: Option<string>, summary: Option<string>, description: Option<string>,
    tags: Option<string>, repoUrl: Option<string>, liveUrl: Option<string>,
    imageUrl: Option<string>, owner: Option<ProfileSummary>)

  datatype ProfileDetail = ProfileDetail(
    profile: Option<ProfileSummary>, experiences: seq<ExperienceDto>, projects: seq<ProjectDto>)

  /** `toSummary`: null for no profile, otherwise the eleven public fields unchanged. */
  function ToSummary(p: Option<ProfileData>): (r: Option<ProfileSummary>)
    ensures r.None? <==> p.None?
    ensures r.Some? ==> (r.value.id == p.value.id && r.value.slug == p.value.slug
      && r.value.name == p.value.name && r.value.role == p.value.role && r.value.bio == p.value.bio
      && r.value.photoUrl == p.value.photoUrl && r.value.githubUrl == p.value.githubUrl
      && r.value.linkedinUrl == p.value.linkedinUrl && r.value.twitterUrl == p.value.twitterUrl
      && r.value.websiteUrl == p.value.websiteUrl && r.value.location == p.value.location)
  {
    match p
    case None => None
    case Some(d) =>
      Some(ProfileSummary(d.id, d.slug, d.name, d.role, d.bio, d.photoUrl, d.githubUrl,
        d.linkedinUrl, d.twitterUrl, d.websiteUrl, d.location))
  }

  /** The summary leaves out exactly the owning user: profiles that differ elsewhere have different summaries. */
  lemma ToSummaryForgetsOnlyUser(p: ProfileData, q: ProfileData)
    ensures ToSummary(Some(p)) == ToSummary(Some(q)) <==> p.(user := q.user) == q
  {
    var sp := ToSummary(Some(p)).value;
    var sq := ToSummary(Some(q)).value;
    if sp == sq {
      assert p.id == q.id && p.slug == q.slug && p.name == q.name && p.role == q.role;
      assert p.bio == q.bio && p.location == q.location && p.photoUrl == q.photoUrl;
      assert p.githubUrl == q.githubUrl && p.linkedinUrl == q.linkedinUrl;
      assert p.twitterUrl == q.twitterUrl && p.websiteUrl == q.websiteUrl;
    }
  }

  /** `toDto(Experience)`: every field copied, the entity's `current` flag included. */
  function ToExperienceDto(e: ExperienceData): (r: ExperienceDto)
    ensures r.id == e.id && r.title == e.title && r.company == e.company && r.location == e.location
    ensures r.startDate == e.startDate && r.endDate == e.endDate && r.current == e.current
    ensures r.description == e.description && r.orderIndex == e.orderIndex
  {
    ExperienceDto(e.id, e.title, e.company, e.location, e.startDate, e.endDate, e.current,
      e.description, e.orderIndex)
  }

  /** `toDto(Project)`: the project's fields and its owner's summary. */
  function ToProjectDto(p: ProjectData): (r: ProjectDto)
    ensures r.id == p.id && r.title == p.title && r.summary == p.summary
    ensures r.description == p.description && r.tags == p.tags && r.repoUrl == p.repoUrl
    ensures r.liveUrl == p.liveUrl && r.imageUrl == p.imageUrl
    ensures r.owner == ToSummary(p.owner)
  {
    ProjectDto(p.id, p.title, p.summary, p.description, p.tags, p.repoUrl, p.liveUrl,
      p.imageUrl, ToSummary(p.owner))
  }

  /** `toProjectDtos`: one record per project, in the given order. */
  function ToProjectDtos(ps: seq<ProjectData>): (r: seq<ProjectDto>)
    ensures |r| == |ps|
    ensures forall i :: 0 <= i < |ps| ==> r[i] == ToProjectDto(ps[i])
  {
    if ps == [] then [] else [ToProjectDto(ps[0])] + ToProjectDtos(ps[1..])
  }

  /** `toDetail`: the profile's summary beside the lists it is given, unchanged. */
  function ToDetail(p: Option<ProfileData>, es: seq<ExperienceDto>, ps: seq<ProjectDto>): (r: ProfileDetail)
    ensures r.profile == ToSummary(p) && r.experiences == es && r.projects == ps
    ensures r.profile.None? <==> p.None?
  {
    ProfileDetail(ToSummary(p), es, ps)
  }

  // ---------------------------------------------------------------------------
  // Experience ordering: orderIndex ascending with nulls last, then startDate
  // descending with nulls last; the stream sort is stable.

  function Sign(x: int): int
  {
    if x < 0 then -1 else if x > 0 then 1 else 0
  }

  /** `Comparator.nullsLast(Integer::compareTo)`. */
  function CompareAscNullsLast(x: Option<int>, y: Option<int>): int
  {
    match (x, y)
    case (None, None) => 0
    case (None, Some(_)) => 1
    case (Some(_), None) => -1
    case (Some(a), Some(b)) => Sign(a - b)
  }

  /** `Comparator.nullsLast(Comparator.reverseOrder())`. */
  function CompareDescNullsLast(x: Option<int>, y: Option<int>): int
  {
    match (x, y)
    case (None, None) => 0
    case (None, Some(_)) => 1
    case (Some(_), None) => -1
    case (Some(a), Some(b)) => Sign(b - a)
  }

  /** The comparator of `toExperienceDtos`. */
  function Compare(a: ExperienceData, b: ExperienceData): int
  {
    var c := CompareAscNullsLast(a.orderIndex, b.orderIndex);
    if c != 0 then c else CompareDescNullsLast(a.startDate, b.startDate)
  }

  /** The two fields the comparator looks at. */
  function Key(e: ExperienceData): (Option<int>, Option<int>)
  {
    (e.orderIndex, e.startDate)
  }

  predicate Before(a: ExperienceData, b: ExperienceData)
  {
    Compare(a, b) <= 0
  }

  /** The comparator is a total preorder whose ties are exactly equal keys. */
  lemma CompareIsTotalPreorder(a: ExperienceData, b: ExperienceData, c: ExperienceData)
    ensures Compare(a, b) == -Compare(b, a)
    ensures Compare(a, b) == 0 <==> Key(a) == Key(b)
    ensures Before(a, b) && Before(b, c) ==> Before(a, c)
    ensures Compare(a, b) < 0 && Before(b, c) ==> Compare(a, c) < 0
  {
  }

  /** The ordering as the source states it, field by field. */
  lemma CompareMeaning(a: ExperienceData, b: ExperienceData)
    ensures a.orderIndex.Some? && b.orderIndex.None? ==> Compare(a, b) < 0
    ensures a.orderIndex.Some? && b.orderIndex.Some? && a.orderIndex.value < b.orderIndex.value ==> Compare(a, b) < 0
    ensures a.orderIndex == b.orderIndex && a.startDate.Some? && b.startDate.None? ==> Compare(a, b) < 0
    ensures (a.orderIndex == b.orderIndex && a.startDate.Some? && b.startDate.Some?
      && a.startDate.value > b.startDate.value) ==> Compare(a, b) < 0
  {
  }

  /** The comparator orders experiences as a total preorder. */
  lemma BeforeIsTotalPreorder()
    ensures Sorting.TotalPreorder(Before)
  {
    forall a, b, c {
      CompareIsTotalPreorder(a, b, c);
    }
  }

  /** Two experiences tie exactly when their keys are equal. */
  lemma TiedIsSameKey(a: ExperienceData, b: ExperienceData)
    ensures Sorting.Tied(a, b, Before) <==> Key(a) == Key(b)
  {
    CompareIsTotalPreorder(a, b, b);
  }

  /** `sorted(...)` with the comparator of `toExperienceDtos`, a stable sort. */
  function SortExperiences(es: seq<ExperienceData>): (r: seq<ExperienceData>)
    ensures |r| == |es| && multiset(r) == multiset(es)
  {
    Sorting.Sort(es, Before)
  }

  /** `toExperienceDtos`: the sorted experiences, each mapped to its record. */
  function ToExperienceDtos(es: seq<ExperienceData>): (r: seq<ExperienceDto>)
    ensures |r| == |es|
    ensures forall i :: 0 <= i < |r| ==> r[i] == ToExperienceDto(SortExperiences(es)[i])
  {
    var sorted := SortExperiences(es);
    seq(|sorted|, i requires 0 <= i < |sorted| => ToExperienceDto(sorted[i]))
  }

  /**
   * The listed records come from a permutation of the input, in comparator
   * order, and experiences with equal keys keep their input order.
   */
  lemma ToExperienceDtosOrdered(es: seq<ExperienceData>, y: ExperienceData)
    ensures multiset(SortExperiences(es)) == multiset(es)
    ensures Sorting.Sorted(SortExperiences(es), Before)
    ensures Sorting.Ties(SortExperiences(es), y, Before) == Sorting.Ties(es, y, Before)
  {
    BeforeIsTotalPreorder();
    Sorting.SortSorted(es, Before);
    Sorting.SortStable(es, y, Before);
  }
}
