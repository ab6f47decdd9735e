/**
 * Profile slugs and profile updates: `slugify` and its normalising wrapper, the
 * suffix search that makes a slug unique, profile creation and the field-by-field
 * update with its slug-conflict check.
 */
module ProfileService {
  import opened Wrappers
  import opened Text
  import opened Entities
  import Finite

  // ---------------------------------------------------------------------------
  // slugify

  /** The characters `[a-z0-9]` a slug keeps. */
  predicate IsSlugChar(c: char) { 'a' <= c <= 'z' || '0' <= c <= '9' }

  predicate IsSeparator(c: char) { !IsSlugChar(c) }

  /** The block `\p{InCombiningDiacriticalMarks}` (U+0300 to U+036F). */
  predicate IsCombiningMark(c: char) { '\U{300}' <= c <= '\U{36F}' }

  /** `replaceAll("\\p{InCombiningDiacriticalMarks}+", "")`. */
  function StripMarks(s: string): (r: string)
    ensures |r| <= |s|
    ensures forall i :: 0 <= i < |r| ==> !IsCombiningMark(r[i])
    ensures (forall i :: 0 <= i < |s| ==> !IsCombiningMark(s[i])) ==> r == s
  {
    if s == [] then []
    else if IsCombiningMark(s[0]) then StripMarks(s[1..])
    else [s[0]] + StripMarks(s[1..])
  }

  /** No two adjacent dashes. */
  ghost predicate NoDoubleDash(s: string)
  {
    forall i, j :: 0 <= i < j < |s| && j == i + 1 ==> !(s[i] == '-' && s[j] == '-')
  }

  /** Only `[a-z0-9-]` and no `--`: the shape `replaceAll("[^a-z0-9]+", "-")` produces. */
  ghost predicate Dashed(s: string)
  {
    (forall i :: 0 <= i < |s| ==> IsSlugChar(s[i]) || s[i] == '-') && NoDoubleDash(s)
  }

  /** `replaceAll("[^a-z0-9]+", "-")`: every maximal run of other characters becomes one dash. */
  function Collapse(s: string): (r: string)
    ensures Dashed(r)
    ensures |r| <= |s|
    ensures (r == []) == (s == [])
    ensures s != [] ==> (r[0] == '-' <==> !IsSlugChar(s[0]))
    decreases |s|
  {
    if s == [] then []
    else if IsSlugChar(s[0]) then [s[0]] + Collapse(s[1..])
    else
      var rest := DropStart(s[1..], IsSeparator);
      var tail := Collapse(rest);
      assert tail != [] ==> tail[0] != '-';
      ['-'] + tail
  }

  /** The tail of a collapsed string is collapsed, and a leading dash is followed by a slug character. */
  lemma DashedTail(s: string)
    requires s != [] && Dashed(s)
    ensures Dashed(s[1..])
    ensures !IsSlugChar(s[0]) ==> s[0] == '-' && (|s| == 1 || IsSlugChar(s[1]))
  {
    var t := s[1..];
    assert forall i :: 0 <= i < |t| ==> t[i] == s[i + 1];
    if |s| > 1 {
      assert !(s[0] == '-' && s[1] == '-');
    }
  }

  /** A string already in collapsed form is left as it is. */
  lemma {:induction false} CollapseFixed(s: string)
    requires Dashed(s)
    ensures Collapse(s) == s
    decreases |s|
  {
    if s != [] {
      DashedTail(s);
      CollapseFixed(s[1..]);
      if !IsSlugChar(s[0]) {
        assert DropStart(s[1..], IsSeparator) == s[1..];
      }
      assert s == [s[0]] + s[1..];
    }
  }

  /** `replaceAll("(^-|-$)", "")`: one leading and one trailing dash are removed. */
  function TrimDashes(s: string): (r: string)
    ensures |r| <= |s|
  {
    var a := if s != [] && s[0] == '-' then s[1..] else s;
    if a != [] && a[|a| - 1] == '-' then a[..|a| - 1] else a
  }

  /** A well-formed slug: non-empty, only `[a-z0-9-]`, no dash at either end, no `--`. */
  ghost predicate IsSlug(s: string)
  {
    s != [] && Dashed(s) && s[0] != '-' && s[|s| - 1] != '-'
  }

  lemma TrimDashesShape(s: string)
    requires Dashed(s)
    ensures var t := TrimDashes(s); Dashed(t) && (t == [] || IsSlug(t))
  {
    var a := if s != [] && s[0] == '-' then s[1..] else s;
    assert Dashed(a);
    assert a != [] ==> a[0] != '-' || s == a;
    var t := TrimDashes(s);
    assert Dashed(t);
    if t != [] && a != [] && a[|a| - 1] == '-' {
      assert t[0] == a[0];
      assert |a| >= 2;
      assert t[|t| - 1] == a[|a| - 2];
    }
  }

  /** A slug contains a character that is not white space. */
  lemma SlugHasText(s: string)
    requires IsSlug(s)
    ensures HasText(Some(s))
  {
    assert !IsJavaWhitespace(s[0]);
  }

  /** The normalisation chain of `slugify` before the blank test (lines 107-111). */
  function SlugCore(s: string): (r: string)
    ensures Dashed(r) && (r == [] || IsSlug(r))
  {
    var c := Collapse(Lower(StripMarks(s)));
    TrimDashesShape(c);
    TrimDashes(c)
  }

  /** A collapsed string is blank exactly when it is empty. */
  lemma DashedBlank(s: string)
    requires Dashed(s)
    ensures IsBlank(s) <==> s == []
  {
    if s != [] {
      assert !IsJavaWhitespace(s[0]);
    }
  }

  /** Lower-casing leaves characters outside `A`-`Z` as they are. */
  lemma LowerKeeps(s: string)
    requires forall i :: 0 <= i < |s| ==> !('A' <= s[i] <= 'Z')
    ensures Lower(s) == s
  {
    assert forall i :: 0 <= i < |s| ==> LowerChar(s[i]) == s[i];
  }

  /** Text made only of separators collapses to a single dash. */
  lemma CollapseSeparators(s: string)
    requires s != [] && forall i :: 0 <= i < |s| ==> IsSeparator(s[i])
    ensures Collapse(s) == "-"
  {
    assert DropStart(s[1..], IsSeparator) == [];
  }

  /** Text made only of white space has an empty core. */
  lemma WhitespaceCore(s: string)
    requires forall i :: 0 <= i < |s| ==> IsJavaWhitespace(s[i])
    ensures SlugCore(s) == []
  {
    var m := StripMarks(s);
    StripMarksWhitespace(s);
    LowerKeeps(m);
    if m != [] {
      CollapseSeparators(m);
    }
  }

  lemma {:induction false} StripMarksWhitespace(s: string)
    requires forall i :: 0 <= i < |s| ==> IsJavaWhitespace(s[i])
    ensures forall i :: 0 <= i < |StripMarks(s)| ==> IsJavaWhitespace(StripMarks(s)[i])
  {
    if s != [] {
      StripMarksWhitespace(s[1..]);
    }
  }

  /** `slugify`: `"profile"` for blank input, otherwise the collapsed lower-case text. */
  function Slugify(input: Option<string>): (r: string)
    ensures IsSlug(r)
    ensures HasText(input) && SlugCore(input.value) != [] ==> r == SlugCore(input.value)
    ensures !HasText(input) || SlugCore(input.value) == [] ==> r == "profile"
  {
    if !HasText(input) then "profile"
    else
      var slug := SlugCore(input.value);
      DashedBlank(slug);
      if IsBlank(slug) then "profile"
      else slug
  }

  /** A collapsed string has no combining marks and no capitals to remove. */
  lemma DashedKept(s: string)
    requires Dashed(s)
    ensures StripMarks(s) == s && Lower(s) == s
  {
    assert forall i :: 0 <= i < |s| ==> !IsCombiningMark(s[i]) && !('A' <= s[i] <= 'Z');
    LowerKeeps(s);
  }

  /** The normalisation chain leaves a well-formed slug as it is. */
  lemma SlugCoreOfSlug(s: string)
    requires IsSlug(s)
    ensures SlugCore(s) == s
  {
    DashedKept(s);
    CollapseFixed(s);
    assert TrimDashes(s) == s;
  }

  /** A well-formed slug is its own slug. */
  lemma SlugifyFixesSlugs(s: string)
    requires IsSlug(s)
    ensures Slugify(Some(s)) == s
  {
    SlugHasText(s);
    SlugCoreOfSlug(s);
  }

  /** Slugify twice is slugify once, so `generateSlug` slugifying twice is harmless. */
  lemma SlugifyIdempotent(input: Option<string>)
    ensures Slugify(Some(Slugify(input))) == Slugify(input)
  {
    SlugifyFixesSlugs(Slugify(input));
  }

  /** `normalizeSlug`: null for null or blank input, otherwise `slugify(input)`. */
  function NormalizeSlug(input: Option<string>): (r: Option<string>)
    ensures r.None? <==> !HasText(input)
    ensures r.Some? ==> r.value == Slugify(input) && IsSlug(r.value)
  {
    if !HasText(input) then None else Some(Slugify(input))
  }

  // ---------------------------------------------------------------------------
  // ensureUniqueSlug / generateSlug

  /** The k-th candidate of the search: `base`, then `base-1`, `base-2`, ... */
  function Candidate(base: string, k: nat): string
  {
    if k == 0 then base else base + "-" + NatToString(k)
  }

  lemma CandidateInjective(base: string, j: nat, k: nat)
    requires Candidate(base, j) == Candidate(base, k)
    ensures j == k
  {
    if j != 0 && k != 0 {
      var cj := Candidate(base, j);
      assert cj[|base| + 1..] == NatToString(j);
      assert Candidate(base, k)[|base| + 1..] == NatToString(k);
      NatToStringInjective(j, k);
    }
  }

  ghost function Candidates(base: string, n: nat): set<string>
  {
    set k | 0 <= k < n :: Candidate(base, k)
  }

  /** The first `n + 1` candidates are the first `n` and candidate `n`. */
  lemma CandidatesStep(base: string, n: nat)
    ensures Candidates(base, n + 1) == Candidates(base, n) + {Candidate(base, n)}
  {
  }

  /** Candidate `n` is none of the first `n`. */
  lemma CandidateFresh(base: string, n: nat)
    ensures Candidate(base, n) !in Candidates(base, n)
  {
    if Candidate(base, n) in Candidates(base, n) {
      var k :| 0 <= k < n && Candidate(base, k) == Candidate(base, n);
      CandidateInjective(base, k, n);
    }
  }

  lemma {:induction false} CandidatesCount(base: string, n: nat)
    ensures |Candidates(base, n)| == n
  {
    if n > 0 {
      CandidatesCount(base, n - 1);
      CandidatesStep(base, n - 1);
      CandidateFresh(base, n - 1);
    }
  }

  /**
   * `ensureUniqueSlug`: the first of `base`, `base-1`, `base-2`, ... that no stored
   * profile uses, where `base = slugify(desired)` and `taken` is the set of stored slugs.
   */
  method EnsureUniqueSlug(desired: string, taken: set<string>) returns (slug: string)
    ensures slug !in taken
    ensures exists k: nat :: (slug == Candidate(Slugify(Some(desired)), k)
      && forall j: nat :: j < k ==> Candidate(Slugify(Some(desired)), j) in taken)
    ensures Slugify(Some(desired)) !in taken ==> slug == Slugify(Some(desired))
  {
    var base := Slugify(Some(desired));
    var suffix := 1;
    slug := base;
    while slug in taken
      invariant suffix >= 1
      invariant slug == Candidate(base, suffix - 1)
      invariant Candidates(base, suffix - 1) <= taken
      invariant suffix - 1 <= |taken|
      decreases |taken| - (suffix - 1)
    {
      assert Candidates(base, suffix) == Candidates(base, suffix - 1) + {slug};
      CandidatesCount(base, suffix);
      Finite.SubsetCount(Candidates(base, suffix), taken);
      slug := base + "-" + NatToString(suffix);
      suffix := suffix + 1;
    }
    assert forall j: nat :: j < suffix - 1 ==> Candidate(base, j) in Candidates(base, suffix - 1);
  }

  /** `generateSlug`: a unique slug derived from a display name. */
  method GenerateSlug(name: Option<string>, taken: set<string>) returns (slug: string)
    ensures slug !in taken
    ensures exists k: nat :: (slug == Candidate(Slugify(name), k)
      && forall j: nat :: j < k ==> Candidate(Slugify(name), j) in taken)
  {
    slug := EnsureUniqueSlug(Slugify(name), taken);
    SlugifyIdempotent(name);
  }

  // ---------------------------------------------------------------------------
  // createProfileForUser and updateProfile

  /**
   * The slug of a new profile: the normalised requested one, or one generated
   * from the display name, `k` being its place in the candidate search.
   */
  method ChooseSlug(slug: Option<string>, displayName: Option<string>, taken: set<string>)
    returns (chosen: string, ghost k: nat)
    ensures NormalizeSlug(slug).Some? ==> chosen == NormalizeSlug(slug).value
    ensures NormalizeSlug(slug).None? ==> (chosen !in taken && chosen == Candidate(Slugify(displayName), k)
      && forall j: nat :: j < k ==> Candidate(Slugify(displayName), j) in taken)
  {
    var normalized := NormalizeSlug(slug);
    k := 0;
    if normalized.Some? {
      chosen := normalized.value;
    } else {
      chosen := GenerateSlug(displayName, taken);
      k :| chosen == Candidate(Slugify(displayName), k)
        && forall j: nat :: j < k ==> Candidate(Slugify(displayName), j) in taken;
    }
  }

  /** A new profile of a user with the given slug and name, in the role `"Member"`; every other field null. */
  method NewMember(user: int, slug: string, name: Option<string>) returns (p: Profile)
    ensures fresh(p)
    ensures p.user == Some(user) && p.slug == Some(slug) && p.name == name && p.role == Some("Member")
    ensures p.id.None? && p.bio.None? && p.location.None? && p.photoUrl.None?
      && p.githubUrl.None? && p.linkedinUrl.None? && p.twitterUrl.None? && p.websiteUrl.None?
  {
    p := new Profile();
    p.user, p.slug, p.name, p.role := Some(user), Some(slug), name, Some("Member");
  }

  /**
   * `createProfileForUser`: the normalised requested slug when there is one,
   * otherwise a unique slug from the display name; role `"Member"`.
   */
  method CreateProfileForUser(user: int, slug: Option<string>, displayName: Option<string>, taken: set<string>)
    returns (p: Profile)
    ensures fresh(p)
    ensures p.user == Some(user) && p.name == displayName && p.role == Some("Member")
    ensures NormalizeSlug(slug).Some? ==> p.slug == NormalizeSlug(slug)
    ensures NormalizeSlug(slug).None? ==> (p.slug.Some? && p.slug.value !in taken
      && exists k: nat :: (p.slug.value == Candidate(Slugify(displayName), k)
        && forall j: nat :: j < k ==> Candidate(Slugify(displayName), j) in taken))
    ensures p.id.None? && p.bio.None? && p.location.None? && p.photoUrl.None?
      && p.githubUrl.None? && p.linkedinUrl.None? && p.twitterUrl.None? && p.websiteUrl.None?
  {
    var chosen, k := ChooseSlug(slug, displayName, taken);
    p := NewMember(user, chosen, displayName);
  }

  /** A `ProfileUpdateRequest`; every field may be null. */
  datatype ProfileUpdate = ProfileUpdate(
    slug: Option<string>, displayName: Option<string>, headline: Option<string>,
    bio: Option<string>, location: Option<string>, photoUrl: Option<string>,
    githubUrl: Option<string>, linkedinUrl: Option<string>, twitterUrl: Option<string>,
    websiteUrl: Option<string>)

  /** A null request field leaves the stored value; a present one is stored via `normalizeNullable`. */
  function Overwrite(stored: Option<string>, req: Option<string>): (r: Option<string>)
    ensures req.None? ==> r == stored
    ensures req.Some? ==> r == TrimToNull(req)
  {
    if req.None? then stored else TrimToNull(req)
  }

  /**
   * The slug, if any, that an update moves the profile to: the normalised
   * request slug when it is present and differs from the current one.
   */
  function SlugChange(d: ProfileData, req: ProfileUpdate): Option<string>
  {
    var desired := NormalizeSlug(req.slug);
    if req.slug.Some? && desired.Some? && desired != d.slug then desired else None
  }

  /** The field setters of `updateProfile` after the slug step (lines 51-77). */
  function WithFields(d: ProfileData, req: ProfileUpdate): ProfileData
  {
    ProfileData(d.id, d.user, d.slug,
      if HasText(req.displayName) then Some(JavaTrim(req.displayName.value)) else d.name,
      Overwrite(d.role, req.headline), Overwrite(d.bio, req.bio), Overwrite(d.location, req.location),
      Overwrite(d.photoUrl, req.photoUrl), Overwrite(d.githubUrl, req.githubUrl),
      Overwrite(d.linkedinUrl, req.linkedinUrl), Overwrite(d.twitterUrl, req.twitterUrl),
      Overwrite(d.websiteUrl, req.websiteUrl))
  }

  /**
   * The outcome of `updateProfile` on a profile whose fields are `d`, where
   * `owners` maps each stored slug to the id of the profile holding it.
   */
  function UpdateOutcome(d: ProfileData, req: ProfileUpdate, owners: map<string, int>): (r: Result<ProfileData, Failure>)
    ensures r.Err? <==> (SlugChange(d, req).Some? && SlugChange(d, req).value in owners
      && Some(owners[SlugChange(d, req).value]) != d.id)
    ensures r.Err? ==> r.error == Failure(Conflict, "Slug already taken")
    ensures r.Ok? ==> r.value.id == d.id && r.value.user == d.user
  {
    var change := SlugChange(d, req);
    if change.Some? && change.value in owners && Some(owners[change.value]) != d.id then
      Err(Failure(Conflict, "Slug already taken"))
    else
      Ok(WithFields(d.(slug := if change.Some? then change else d.slug), req))
  }

  /**
   * A successful update moves the slug only to a new normalised one, sets the
   * name only from a request name that has text, and treats every other field
   * by `Overwrite`: null request fields leave the stored value.
   */
  lemma UpdateFields(d: ProfileData, req: ProfileUpdate, owners: map<string, int>)
    requires UpdateOutcome(d, req, owners).Ok?
    ensures var e := UpdateOutcome(d, req, owners).value;
      (e.slug == d.slug || (req.slug.Some? && e.slug == NormalizeSlug(req.slug)))
      && (e.slug.Some? && e.slug != d.slug ==> e.slug.value !in owners || Some(owners[e.slug.value]) == d.id)
      && (e.name == d.name || (HasText(req.displayName) && e.name == Some(JavaTrim(req.displayName.value))))
      && (!HasText(req.displayName) ==> e.name == d.name)
      && e.role == Overwrite(d.role, req.headline) && e.bio == Overwrite(d.bio, req.bio)
      && e.location == Overwrite(d.location, req.location)
      && e.photoUrl == Overwrite(d.photoUrl, req.photoUrl)
      && e.githubUrl == Overwrite(d.githubUrl, req.githubUrl)
      && e.linkedinUrl == Overwrite(d.linkedinUrl, req.linkedinUrl)
      && e.twitterUrl == Overwrite(d.twitterUrl, req.twitterUrl)
      && e.websiteUrl == Overwrite(d.websiteUrl, req.websiteUrl)
  {
  }

  /** Applying the same update request twice has the effect of applying it once. */
  lemma UpdateIdempotent(d: ProfileData, req: ProfileUpdate, owners: map<string, int>)
    requires UpdateOutcome(d, req, owners).Ok?
    ensures UpdateOutcome(UpdateOutcome(d, req, owners).value, req, owners) == UpdateOutcome(d, req, owners)
  {
    var e := UpdateOutcome(d, req, owners).value;
    assert SlugChange(e, req).None?;
    TrimToNullIdempotent(req.headline);
    TrimToNullIdempotent(req.bio);
    if HasText(req.displayName) {
      TrimIdempotent(req.displayName.value, IsJavaTrimmed);
    }
  }

  /** A request whose fields are all null changes nothing. */
  lemma EmptyUpdateChangesNothing(d: ProfileData, owners: map<string, int>)
    ensures UpdateOutcome(d, ProfileUpdate(None, None, None, None, None, None, None, None, None, None), owners) == Ok(d)
  {
  }

  /** Writes the fields a profile update may change; id, owner and slug are kept. */
  method SetEditable(p: Profile, name: Option<string>, role: Option<string>, bio: Option<string>,
                     location: Option<string>, photoUrl: Option<string>, githubUrl: Option<string>,
                     linkedinUrl: Option<string>, twitterUrl: Option<string>, websiteUrl: Option<string>)
    modifies p
    ensures p.Data() == ProfileData(old(p.id), old(p.user), old(p.slug), name, role, bio, location,
      photoUrl, githubUrl, linkedinUrl, twitterUrl, websiteUrl)
  {
    p.name, p.role, p.bio, p.location := name, role, bio, location;
    p.photoUrl, p.githubUrl, p.linkedinUrl, p.twitterUrl, p.websiteUrl := photoUrl, githubUrl, linkedinUrl, twitterUrl, websiteUrl;
  }

  /** The setters of `updateProfile`: each runs only when its request field is non-null. */
  method ApplyFields(p: Profile, req: ProfileUpdate)
    modifies p
    ensures p.Data() == WithFields(old(p.Data()), req)
  {
    var name := if HasText(req.displayName) then Some(JavaTrim(req.displayName.value)) else p.name;
    var role := Overwrite(p.role, req.headline);
    var bio := Overwrite(p.bio, req.bio);
    var location := Overwrite(p.location, req.location);
    var photoUrl := Overwrite(p.photoUrl, req.photoUrl);
    var githubUrl := Overwrite(p.githubUrl, req.githubUrl);
    var linkedinUrl := Overwrite(p.linkedinUrl, req.linkedinUrl);
    var twitterUrl := Overwrite(p.twitterUrl, req.twitterUrl);
    var websiteUrl := Overwrite(p.websiteUrl, req.websiteUrl);
    SetEditable(p, name, role, bio, location, photoUrl, githubUrl, linkedinUrl, twitterUrl, websiteUrl);
  }

  /**
   * `updateProfile`: a null request changes nothing; a slug held by another
   * profile fails with CONFLICT before any field is written; otherwise the
   * profile takes the fields `UpdateOutcome` describes.
   */
  method UpdateProfile(p: Profile, request: Option<ProfileUpdate>, owners: map<string, int>)
    returns (failure: Option<Failure>)
    modifies p
    ensures request.None? ==> failure.None? && p.Data() == old(p.Data())
    ensures request.Some? && UpdateOutcome(old(p.Data()), request.value, owners).Err? ==>
      failure == Some(UpdateOutcome(old(p.Data()), request.value, owners).error) && p.Data() == old(p.Data())
    ensures request.Some? && UpdateOutcome(old(p.Data()), request.value, owners).Ok? ==>
      failure.None? && p.Data() == UpdateOutcome(old(p.Data()), request.value, owners).value
  {
    if request.None? {
      return None;
    }
    var req := request.value;
    var d := p.Data();
    // a present request slug that normalises to a different slug is checked, then set
    var change := SlugChange(d, req);
    if change.Some? {
      if change.value in owners && Some(owners[change.value]) != d.id {
        return Some(Failure(Conflict, "Slug already taken"));
      }
      p.slug := change;
    }
    ApplyFields(p, req);
    failure := None;
  }
}
