/**
 * The member dashboard: the profile form filled from the signed-in member's
 * summary, the request bodies its four forms send, the message of a failed
 * response, the date range shown on an experience, and the rule that a
 * deleted item resets its section's form only when that item is being edited.
 */
module Dashboard {
  import opened Wrappers
  import opened Text
  import opened Browser
  import PM = ProfileMapper
  import PS = ProfileService
  import AS = AuthService
  import PJ = ProjectService
  import Tsx = AuthContextTsx

  // ---------------------------------------------------------------------------
  // Forms and their request bodies

  /** `s.trim() || null`. */
  function TrimOrNull(s: string): (r: Option<string>)
    ensures r.None? <==> JsTrim(s) == ""
    ensures r.Some? ==> r.value == JsTrim(s)
  {
    if JsTrim(s) == "" then None else Some(JsTrim(s))
  }

  /** A property as the form shows it, turned back into a request field, is unchanged when it was already trimmed. */
  lemma TrimOrNullOfShown(v: Option<string>)
    requires v.None? || (v.value != "" && JsTrim(v.value) == v.value)
    ensures TrimOrNull(OrElse(v, "")) == v
  {
    if v.None? {
      assert JsTrim("") == "" by { TrimEmpty("", IsJsSpace); }
    }
  }

  datatype ProfileForm = ProfileForm(
    displayName: string, slug: string, headline: string, bio: string, location: string,
    photoUrl: string, githubUrl: string, linkedinUrl: string, twitterUrl: string, websiteUrl: string)

  /**
   * `toProfileForm`: the summary's name as the display name and its role as
   * the headline, every other field under its own name; whatever is missing
   * (the whole summary included) is the empty string.
   */
  function ToProfileForm(summary: Option<PM.ProfileSummary>): (f: ProfileForm)
    ensures summary.None? ==> f == ProfileForm("", "", "", "", "", "", "", "", "", "")
    ensures summary.Some? ==> var s := summary.value;
      f.displayName == OrElse(s.name, "") && f.headline == OrElse(s.role, "")
      && f.slug == OrElse(s.slug, "") && f.bio == OrElse(s.bio, "") && f.location == OrElse(s.location, "")
      && f.photoUrl == OrElse(s.photoUrl, "") && f.githubUrl == OrElse(s.githubUrl, "")
      && f.linkedinUrl == OrElse(s.linkedinUrl, "") && f.twitterUrl == OrElse(s.twitterUrl, "")
      && f.websiteUrl == OrElse(s.websiteUrl, "")
  {
    match summary
    case None => ProfileForm("", "", "", "", "", "", "", "", "", "")
    case Some(s) =>
      ProfileForm(OrElse(s.name, ""), OrElse(s.slug, ""), OrElse(s.role, ""), OrElse(s.bio, ""),
        OrElse(s.location, ""), OrElse(s.photoUrl, ""), OrElse(s.githubUrl, ""),
        OrElse(s.linkedinUrl, ""), OrElse(s.twitterUrl, ""), OrElse(s.websiteUrl, ""))
  }

  const DisplayNameRequired := "Display name is required."

  /**
   * The body of the profile form's PUT: refused without a display name;
   * otherwise the trimmed display name and every other field trimmed, or
   * null when it trims to nothing.
   */
  function ProfilePayload(f: ProfileForm): (r: Result<PS.ProfileUpdate, string>)
    ensures r.Err? <==> JsTrim(f.displayName) == ""
    ensures r.Err? ==> r.error == DisplayNameRequired
    ensures r.Ok? ==> var u := r.value;
      u.displayName == Some(JsTrim(f.displayName)) && u.slug == TrimOrNull(f.slug)
      && u.headline == TrimOrNull(f.headline) && u.bio == TrimOrNull(f.bio)
      && u.location == TrimOrNull(f.location) && u.photoUrl == TrimOrNull(f.photoUrl)
      && u.githubUrl == TrimOrNull(f.githubUrl) && u.linkedinUrl == TrimOrNull(f.linkedinUrl)
      && u.twitterUrl == TrimOrNull(f.twitterUrl) && u.websiteUrl == TrimOrNull(f.websiteUrl)
  {
    var displayName := JsTrim(f.displayName);
    if displayName == "" then Err(DisplayNameRequired)
    else
      Ok(PS.ProfileUpdate(TrimOrNull(f.slug), Some(displayName), TrimOrNull(f.headline),
        TrimOrNull(f.bio), TrimOrNull(f.location), TrimOrNull(f.photoUrl), TrimOrNull(f.githubUrl),
        TrimOrNull(f.linkedinUrl), TrimOrNull(f.twitterUrl), TrimOrNull(f.websiteUrl)))
  }

  /** A summary value as the backend returns it: missing, or not empty and already trimmed. */
  predicate Clean(v: Option<string>)
  {
    v.None? || (v.value != "" && JsTrim(v.value) == v.value)
  }

  /** The summary's slug, role, bio and location come back from the form as they were. */
  lemma ShownDetailsKept(s: PM.ProfileSummary)
    requires Clean(s.slug) && Clean(s.role) && Clean(s.bio) && Clean(s.location)
    ensures var f := ToProfileForm(Some(s));
      TrimOrNull(f.slug) == s.slug && TrimOrNull(f.headline) == s.role
      && TrimOrNull(f.bio) == s.bio && TrimOrNull(f.location) == s.location
  {
    TrimOrNullOfShown(s.slug);
    TrimOrNullOfShown(s.role);
    TrimOrNullOfShown(s.bio);
    TrimOrNullOfShown(s.location);
  }

  /** The summary's photo and links come back from the form as they were. */
  lemma ShownLinksKept(s: PM.ProfileSummary)
    requires Clean(s.photoUrl) && Clean(s.githubUrl) && Clean(s.linkedinUrl) && Clean(s.twitterUrl) && Clean(s.websiteUrl)
    ensures var f := ToProfileForm(Some(s));
      TrimOrNull(f.photoUrl) == s.photoUrl && TrimOrNull(f.githubUrl) == s.githubUrl
      && TrimOrNull(f.linkedinUrl) == s.linkedinUrl && TrimOrNull(f.twitterUrl) == s.twitterUrl
      && TrimOrNull(f.websiteUrl) == s.websiteUrl
  {
    TrimOrNullOfShown(s.photoUrl);
    TrimOrNullOfShown(s.githubUrl);
    TrimOrNullOfShown(s.linkedinUrl);
    TrimOrNullOfShown(s.twitterUrl);
    TrimOrNullOfShown(s.websiteUrl);
  }

  /**
   * Saving the profile form unchanged sends back what the summary holds:
   * the name as display name, the role as headline, the rest field by field.
   */
  lemma UnchangedProfileResubmits(s: PM.ProfileSummary)
    requires s.name.Some? && Clean(s.name)
    requires Clean(s.slug) && Clean(s.role) && Clean(s.bio) && Clean(s.location) && Clean(s.photoUrl)
    requires Clean(s.githubUrl) && Clean(s.linkedinUrl) && Clean(s.twitterUrl) && Clean(s.websiteUrl)
    ensures ProfilePayload(ToProfileForm(Some(s))) == Ok(PS.ProfileUpdate(s.slug, s.name, s.role,
      s.bio, s.location, s.photoUrl, s.githubUrl, s.linkedinUrl, s.twitterUrl, s.websiteUrl))
  {
    var f := ToProfileForm(Some(s));
    assert f.displayName == s.name.value;
    ShownDetailsKept(s);
    ShownLinksKept(s);
  }

  datatype RegisterForm = RegisterForm(email: string, password: string, displayName: string, slug: string)

  const RegisterFieldsRequired := "Email, password, and display name are required."

  /**
   * The body of the registration form: refused unless the trimmed email, the
   * password as typed and the trimmed display name are all non-empty; the
   * slug trimmed or null; every profile field null.
   */
  function RegisterPayload(f: RegisterForm): (r: Result<AS.RegisterRequest, string>)
    ensures r.Err? <==> JsTrim(f.email) == "" || f.password == "" || JsTrim(f.displayName) == ""
    ensures r.Err? ==> r.error == RegisterFieldsRequired
    ensures r.Ok? ==> r.value == AS.RegisterRequest(Some(JsTrim(f.email)), Some(f.password),
      TrimOrNull(f.slug), Some(JsTrim(f.displayName)), None, None, None, None, None, None, None, None)
  {
    var email := JsTrim(f.email);
    var displayName := JsTrim(f.displayName);
    if email == "" || f.password == "" || displayName == "" then Err(RegisterFieldsRequired)
    else
      Ok(AS.RegisterRequest(Some(email), Some(f.password), TrimOrNull(f.slug), Some(displayName),
        None, None, None, None, None, None, None, None))
  }

  datatype ExperienceForm = ExperienceForm(
    title: string, company: string, location: string, startDate: string, endDate: string,
    current: bool, description: string, orderIndex: string)

  const EmptyExperience := ExperienceForm("", "", "", "", "", false, "", "")

  /** The experience body: dates stay `YYYY-MM-DD` text. */
  datatype ExperiencePayload = ExperiencePayload(
    title: string, company: Option<string>, location: Option<string>, startDate: Option<string>,
    endDate: Option<string>, current: bool, description: Option<string>, orderIndex: Option<int>)

  const TitleRequired := "Title is required."

  /** `s || null` on a form field. */
  function OrNull(s: string): (r: Option<string>)
    ensures r.None? <==> s == ""
    ensures r.Some? ==> r.value == s
  {
    if s == "" then None else Some(s)
  }

  /**
   * The body of the experience form (`Number` is the browser's conversion of
   * the order field): refused without a title; a current role sends no end
   * date; an empty order field sends null.
   */
  function ExperienceBody(f: ExperienceForm, number: string -> int): (r: Result<ExperiencePayload, string>)
    ensures r.Err? <==> JsTrim(f.title) == ""
    ensures r.Err? ==> r.error == TitleRequired
    ensures r.Ok? ==> var p := r.value;
      p.title == JsTrim(f.title) && p.title != ""
      && p.company == TrimOrNull(f.company) && p.location == TrimOrNull(f.location)
      && p.description == TrimOrNull(f.description)
      && p.startDate == OrNull(f.startDate) && p.current == f.current
      && (f.current ==> p.endDate.None?) && (!f.current ==> p.endDate == OrNull(f.endDate))
      && (p.orderIndex.None? <==> f.orderIndex == "")
      && (f.orderIndex != "" ==> p.orderIndex == Some(number(f.orderIndex)))
  {
    if JsTrim(f.title) == "" then Err(TitleRequired)
    else
      Ok(ExperiencePayload(JsTrim(f.title), TrimOrNull(f.company), TrimOrNull(f.location),
        OrNull(f.startDate), if f.current then None else OrNull(f.endDate), f.current,
        TrimOrNull(f.description), if f.orderIndex == "" then None else Some(number(f.orderIndex))))
  }

  datatype ProjectForm = ProjectForm(
    title: string, summary: string, description: string, tags: string,
    repoUrl: string, liveUrl: string, imageUrl: string)

  const EmptyProject := ProjectForm("", "", "", "", "", "", "")

  /** The body of the project form: refused without a title; the title trimmed, every other field trimmed or null. */
  function ProjectBody(f: ProjectForm): (r: Result<PJ.ProjectRequest, string>)
    ensures r.Err? <==> JsTrim(f.title) == ""
    ensures r.Err? ==> r.error == TitleRequired
    ensures r.Ok? ==> r.value == PJ.ProjectRequest(Some(JsTrim(f.title)), TrimOrNull(f.summary),
      TrimOrNull(f.description), TrimOrNull(f.tags), TrimOrNull(f.repoUrl), TrimOrNull(f.liveUrl),
      TrimOrNull(f.imageUrl))
  {
    if JsTrim(f.title) == "" then Err(TitleRequired)
    else
      Ok(PJ.ProjectRequest(Some(JsTrim(f.title)), TrimOrNull(f.summary), TrimOrNull(f.description),
        TrimOrNull(f.tags), TrimOrNull(f.repoUrl), TrimOrNull(f.liveUrl), TrimOrNull(f.imageUrl)))
  }

  /**
   * A field sent, shown again in the form and sent again, is sent unchanged:
   * re-saving an item the dashboard wrote does not alter it.
   */
  lemma TrimOrNullStable(s: string)
    ensures TrimOrNull(OrElse(TrimOrNull(s), "")) == TrimOrNull(s)
  {
    TrimIdempotent(s, IsJsSpace);
    TrimOrNullOfShown(TrimOrNull(s));
  }

  // ---------------------------------------------------------------------------
  // Responses

  /**
   * `readJson`: the parsed body of an OK response (nothing for an empty or
   * unparseable body); for any other, an error whose message is the body's
   * `message`, else its `error`, else the status text, else "Request failed",
   * carrying the status.
   */
  function ReadJson(response: HttpResponse, parse: string -> Option<Payload>): (r: Result<Option<Payload>, JsError>)
    ensures r.Err? <==> !response.ok
    ensures r.Ok? ==> r.value == Tsx.Body(response, parse)
    ensures r.Err? ==> r.error == JsError(Tsx.ErrorMessage(Tsx.Body(response, parse), response.statusText),
      Some(response.status), None)
  {
    var data := Tsx.Body(response, parse);
    if !response.ok then Err(JsError(Tsx.ErrorMessage(data, response.statusText), Some(response.status), None))
    else Ok(data)
  }

  /** The dashboard reads responses as the typed auth context does, except that its errors carry no body. */
  lemma ReadJsonAgreesWithAuthContext(response: HttpResponse, parse: string -> Option<Payload>)
    ensures ReadJson(response, parse).Ok? == Tsx.ParseJsonResponse(response, parse).Ok?
    ensures ReadJson(response, parse).Ok? ==> ReadJson(response, parse).value == Tsx.ParseJsonResponse(response, parse).value
    ensures ReadJson(response, parse).Err? ==>
      ReadJson(response, parse).error == Tsx.ParseJsonResponse(response, parse).error.(payload := None)
  {
  }

  // ---------------------------------------------------------------------------
  // Experience list

  /**
   * The dashboard's own `formatRange`: with neither date, "Current" for a
   * current role and nothing otherwise; else the start (or "Unknown"), an
   * en dash, and "Present" for a current role or the end (or "Unknown").
   */
  function FormatRange(start: Option<string>, end: Option<string>, current: bool): (r: string)
    ensures !Truthy(start) && !Truthy(end) ==> r == (if current then "Current" else "")
    ensures Truthy(start) || Truthy(end) ==>
      r == OrElse(start, "Unknown") + " – " + (if current then "Present" else OrElse(end, "Unknown"))
  {
    if !Truthy(start) && !Truthy(end) then (if current then "Current" else "")
    else OrElse(start, "Unknown") + " – " + (if current then "Present" else OrElse(end, "Unknown"))
  }

  /** The range is blank exactly for an entry with no dates that is not current. */
  lemma FormatRangeBlank(start: Option<string>, end: Option<string>, current: bool)
    ensures FormatRange(start, end, current) == "" <==> !Truthy(start) && !Truthy(end) && !current
  {
  }

  /** A shown date is never replaced: whenever the range mentions dates, it starts with the start date when there is one. */
  lemma FormatRangeStartsWithStart(start: string, end: Option<string>, current: bool)
    requires start != ""
    ensures StartsWith(FormatRange(Some(start), end, current), start + " – ")
  {
    var r := FormatRange(Some(start), end, current);
    assert r == start + " – " + (if current then "Present" else OrElse(end, "Unknown"));
  }

  // ---------------------------------------------------------------------------
  // The edit state of the experience and project sections

  /** One list section: its form, the id of the item being edited, and its error. */
  class Section<F> {
    const empty: F
    var form: F
    var editingId: Option<int>
    var error: Option<string>

    /** A section starts with its empty form and nothing being edited. */
    constructor (empty: F)
      ensures this.empty == empty && form == empty && editingId.None? && error.None?
    {
      this.empty := empty;
      form, editingId, error := empty, None, None;
    }

    /** `resetExperienceForm` / `resetProjectForm`. */
    method Reset()
      modifies this
      ensures form == empty && editingId.None? && error.None?
    {
      form, editingId, error := empty, None, None;
    }

    /** `startExperienceEdit` / `startProjectEdit`: the item's values fill the form. */
    method StartEdit(values: F, id: int)
      modifies this
      ensures form == values && editingId == Some(id) && error.None?
    {
      form, editingId, error := values, Some(id), None;
    }

    /**
     * A submission, given the body check (`Err` leaves the form for the user
     * to correct) and, for a body that was sent, the outcome of the request:
     * success resets the section; a failure keeps the form and shows the message.
     */
    method Submit<B>(body: Result<B, string>, outcome: Result<(), string>)
      modifies this
      ensures body.Err? ==> form == old(form) && editingId == old(editingId) && error == Some(body.error)
      ensures body.Ok? && outcome.Ok? ==> form == empty && editingId.None? && error.None?
      ensures body.Ok? && outcome.Err? ==> form == old(form) && editingId == old(editingId) && error == Some(outcome.error)
    {
      error := None;
      if body.Err? {
        error := Some(body.error);
        return;
      }
      if outcome.Ok? {
        Reset();
      } else {
        error := Some(outcome.error);
      }
    }

    /**
     * `handleExperienceDelete` / `handleProjectDelete`: a successful delete
     * resets the form only when the deleted item is the one being edited; a
     * failed one keeps the form and shows the message.
     */
    method Delete(id: int, outcome: Result<(), string>)
      modifies this
      ensures outcome.Ok? && old(editingId) == Some(id) ==> form == empty && editingId.None? && error.None?
      ensures outcome.Ok? && old(editingId) != Some(id) ==>
        form == old(form) && editingId == old(editingId) && error.None?
      ensures outcome.Err? ==> form == old(form) && editingId == old(editingId) && error == Some(outcome.error)
    {
      error := None;
      if outcome.Err? {
        error := Some(outcome.error);
        return;
      }
      if editingId == Some(id) {
        Reset();
      }
    }
  }
}
