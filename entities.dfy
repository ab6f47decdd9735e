/**
 * Back-end records shared by the services: the profile a user owns, the HTTP
 * failure a `ResponseStatusException` carries, and the field values the
 * services write through setters. Java `null` is `None`.
 */
module Entities {
  import opened Wrappers

  /** HTTP status codes raised by the services. */
  const BadRequest: int := 400
  const Unauthorized: int := 401
  const NotFound: int := 404
  const Conflict: int := 409

  /** A `ResponseStatusException`: a status code and its reason text. */
  datatype Failure = Failure(status: int, message: string)

  /** The persistent fields of a profile, as read through its getters. */
  datatype ProfileData = ProfileData(
    id: Option<int>, user: Option<int>, slug: Option<string>, name: Option<string>,
    role: Option<string>, bio: Option<string>, location: Option<string>,
    photoUrl: Option<string>, githubUrl: Option<string>, linkedinUrl: Option<string>,
    twitterUrl: Option<string>, websiteUrl: Option<string>)

  /** A profile entity; the services change it through its setters. */
  class Profile {
    var id: Option<int>
    var user: Option<int>
    var slug: Option<string>
    var name: Option<string>
    var role: Option<string>
    var bio: Option<string>
    var location: Option<string>
    var photoUrl: Option<string>
    var githubUrl: Option<string>
    var linkedinUrl: Option<string>
    var twitterUrl: Option<string>
    var websiteUrl: Option<string>

    /** `new Profile()`: every field null. */
    constructor ()
      ensures id.None? && user.None? && slug.None? && name.None? && role.None? && bio.None?
      ensures location.None? && photoUrl.None? && githubUrl.None? && linkedinUrl.None?
      ensures twitterUrl.None? && websiteUrl.None?
    {
      id, user, slug, name, role, bio, location := None, None, None, None, None, None, None;
      photoUrl, githubUrl, linkedinUrl, twitterUrl, websiteUrl := None, None, None, None, None;
    }

    function Data(): ProfileData
      reads this
    {
      ProfileData(id, user, slug, name, role, bio, location, photoUrl, githubUrl,
        linkedinUrl, twitterUrl, websiteUrl)
    }
  }

  /** The persistent fields of an experience; dates are day numbers. */
  datatype ExperienceData = ExperienceData(
    id: Option<int>, profile: Option<int>, title: Option<string>, company: Option<string>,
    location: Option<string>, startDate: Option<int>, endDate: Option<int>, current: bool,
    description: Option<string>, orderIndex: Option<int>)

  /** An experience entity, changed through its setters. */
  class Experience {
    var id: Option<int>
    var profile: Option<int>
    var title: Option<string>
    var company: Option<string>
    var location: Option<string>
    var startDate: Option<int>
    var endDate: Option<int>
    var current: bool
    var description: Option<string>
    var orderIndex: Option<int>

    /** An entity loaded from a stored row. */
    constructor (d: ExperienceData)
      ensures Data() == d
    {
      id, profile, title, company, location := d.id, d.profile, d.title, d.company, d.location;
      startDate, endDate, current, description, orderIndex := d.startDate, d.endDate, d.current, d.description, d.orderIndex;
    }

    function Data(): ExperienceData
      reads this
    {
      ExperienceData(id, profile, title, company, location, startDate, endDate, current,
        description, orderIndex)
    }
  }

  /** `new Experience()` before any setter: every field null, `current` false. */
  const NewExperience: ExperienceData := ExperienceData(None, None, None, None, None, None, None, false, None, None)

  /** The persistent fields of a project; `owner` is the owning profile as loaded with it. */
  datatype ProjectData = ProjectData(
    id: Option<int>, owner: Option<ProfileData>, title: Option<string>, summary: Option<string>,
    description: Option<string>, tags: Option<string>, repoUrl: Option<string>,
    liveUrl: Option<string>, imageUrl: Option<string>, createdAt: int)

  /** A project entity, changed through its setters. */
  class Project {
    var id: Option<int>
    var owner: Option<ProfileData>
    var title: Option<string>
    var summary: Option<string>
    var description: Option<string>
    var tags: Option<string>
    var repoUrl: Option<string>
    var liveUrl: Option<string>
    var imageUrl: Option<string>
    var createdAt: int

    /** An entity loaded from a stored row. */
    constructor (d: ProjectData)
      ensures Data() == d
    {
      id, owner, title, summary, description := d.id, d.owner, d.title, d.summary, d.description;
      tags, repoUrl, liveUrl, imageUrl, createdAt := d.tags, d.repoUrl, d.liveUrl, d.imageUrl, d.createdAt;
    }

    function Data(): ProjectData
      reads this
    {
      ProjectData(id, owner, title, summary, description, tags, repoUrl, liveUrl, imageUrl, createdAt)
    }
  }

  /**
   * A repository's `delete` of row `i`: exactly that one row leaves the table,
   * and the others stay.
   */
  function Without<T(==)>(rows: seq<T>, i: nat): (r: seq<T>)
    requires i < |rows|
    ensures |r| == |rows| - 1
    ensures multiset(r) == multiset(rows) - multiset{rows[i]}
    ensures forall j :: 0 <= j < |rows| && j != i ==> rows[j] in r
  {
    assert rows == rows[..i] + [rows[i]] + rows[i + 1..];
    assert forall j :: i < j < |rows| ==> rows[j] == rows[i + 1..][j - i - 1];
    rows[..i] + rows[i + 1..]
  }
}
