/**
 * A team member's page: the member and project requests, the featured
 * projects, the de-duplicated skill tags, the background variant chosen by
 * slug, the particle props and the experience timeline. The image fallback
 * of its project cards is the home page's (`App.ImageElement`).
 */
module MemberPage {
  import opened Wrappers
  import opened Text
  import opened Browser
  import App

  /** A project as the page reads it. */
  datatype ProjectItem = ProjectItem(title: string, tags: Option<string>, imageUrl: Option<string>)

  /** The member record's fields the page reads. */
  datatype MemberItem = MemberItem(name: string, slug: string)

  function MemberUrl(apiBase: string, slug: string): string
  {
    apiBase + "/team/slug/" + slug
  }

  function ProjectsUrl(apiBase: string, slug: string): string
  {
    apiBase + "/projects?memberSlug=" + slug
  }

  /**
   * The member request's outcome, given whether the response was OK and its
   * decoded body (`None` when the request or the decoding fails): the member,
   * or the error message the page holds.
   */
  function MemberOutcome(ok: Option<bool>, body: Option<MemberItem>, networkMessage: string): (r: Result<MemberItem, string>)
    ensures ok == Some(false) ==> r == Err("Not found")
    ensures r.Ok? <==> ok == Some(true) && body.Some?
    ensures r.Ok? ==> r.value == body.value
  {
    match ok
    case None => Err(networkMessage)
    case Some(false) => Err("Not found")
    case Some(true) => if body.Some? then Ok(body.value) else Err(networkMessage)
  }

  /** The project list after its request: the decoded list on an OK response, and empty on any failure. */
  function ProjectsOutcome(ok: Option<bool>, body: Option<seq<ProjectItem>>): (r: seq<ProjectItem>)
    ensures ok == Some(true) && body.Some? ==> r == body.value
    ensures !(ok == Some(true) && body.Some?) ==> r == []
  {
    if ok == Some(true) && body.Some? then body.value else []
  }

  /** What the page renders before its content: loading, not found, or the member. */
  datatype Page = Loading | NotFound | MemberView(member: MemberItem)

  function PageOf(loading: bool, error: Option<string>, member: Option<MemberItem>): (p: Page)
    ensures loading ==> p == Loading
    ensures p.MemberView? <==> !loading && !Truthy(error) && member.Some?
    ensures p.MemberView? ==> p.member == member.value
  {
    if loading then Loading
    else if Truthy(error) || member.None? then NotFound
    else MemberView(member.value)
  }

  /** `projects.slice(0, 3)`: the first three projects, or all of them when fewer. */
  function Featured(projects: seq<ProjectItem>): (r: seq<ProjectItem>)
    ensures |r| == if |projects| < 3 then |projects| else 3
    ensures r == projects[..|r|]
  {
    if |projects| < 3 then projects else projects[..3]
  }

  // ---------------------------------------------------------------------------
  // Skill tags

  /** Every chip of every project, in project order. */
  function AllChips(projects: seq<ProjectItem>): seq<string>
  {
    if projects == [] then []
    else AllChips(projects[..|projects| - 1]) + App.Chips(projects[|projects| - 1].tags)
  }

  /** A `Set` filled in order and read back: the first occurrence of each element, in order. */
  function Distinct(s: seq<string>): (r: seq<string>)
    ensures forall x :: x in r <==> x in s
    ensures forall i, j :: 0 <= i < j < |r| ==> r[i] != r[j]
  {
    if s == [] then []
    else
      var d := Distinct(s[..|s| - 1]);
      assert forall x :: x in s <==> x in s[..|s| - 1] || x == s[|s| - 1] by {
        assert s == s[..|s| - 1] + [s[|s| - 1]];
      }
      if s[|s| - 1] in d then d else d + [s[|s| - 1]]
  }

  /** The position of the first occurrence. */
  function Position(s: seq<string>, x: string): (k: nat)
    requires x in s
    ensures k < |s| && s[k] == x && x !in s[..k]
  {
    if s[0] == x then 0 else 1 + Position(s[1..], x)
  }

  lemma {:induction false} PositionInPrefix(s: seq<string>, x: string, n: nat)
    requires n <= |s| && x in s[..n]
    ensures Position(s, x) == Position(s[..n], x)
  {
    if s[0] != x {
      assert s[1..][..n - 1] == s[..n][1..];
      PositionInPrefix(s[1..], x, n - 1);
    }
  }

  /** The distinct elements keep the order of their first occurrences. */
  lemma {:induction false} DistinctFirstSeen(s: seq<string>)
    ensures forall i, j :: 0 <= i < j < |Distinct(s)| ==> Position(s, Distinct(s)[i]) < Position(s, Distinct(s)[j])
  {
    if s != [] {
      var p := s[..|s| - 1];
      var x := s[|s| - 1];
      var d := Distinct(p);
      DistinctFirstSeen(p);
      forall y | y in d ensures Position(s, y) == Position(p, y) && Position(p, y) < |p| {
        PositionInPrefix(s, y, |p|);
      }
      if x !in d {
        assert x !in p;
        assert s[..|p|] == p;
        assert Position(s, x) == |p|;
      }
    }
  }

  lemma DistinctAppend(s: seq<string>, x: string)
    ensures Distinct(s + [x]) == if x in Distinct(s) then Distinct(s) else Distinct(s) + [x]
  {
    assert (s + [x])[..|s|] == s;
  }

  lemma AllChipsAppend(projects: seq<ProjectItem>, p: ProjectItem)
    ensures AllChips(projects + [p]) == AllChips(projects) + App.Chips(p.tags)
  {
    assert (projects + [p])[..|projects|] == projects;
  }

  lemma AllChipsPrefix(projects: seq<ProjectItem>, i: nat)
    requires i < |projects|
    ensures AllChips(projects[..i + 1]) == AllChips(projects[..i]) + App.Chips(projects[i].tags)
  {
    assert projects[..i + 1] == projects[..i] + [projects[i]];
    AllChipsAppend(projects[..i], projects[i]);
  }

  /** The skill tags: the distinct chips of all projects in first-seen order, at most ten. */
  function TagsOf(projects: seq<ProjectItem>): seq<string>
  {
    var d := Distinct(AllChips(projects));
    if |d| <= 10 then d else d[..10]
  }

  /** The inner `forEach`: each chip added to the set unless already there. */
  method AddChips(seen: seq<string>, ghost before: seq<string>, chips: seq<string>) returns (r: seq<string>)
    requires seen == Distinct(before)
    ensures r == Distinct(before + chips)
  {
    r := seen;
    var k := 0;
    assert before + chips[..0] == before;
    while k < |chips|
      invariant 0 <= k <= |chips|
      invariant r == Distinct(before + chips[..k])
    {
      DistinctAppend(before + chips[..k], chips[k]);
      assert before + chips[..k + 1] == before + chips[..k] + [chips[k]];
      if chips[k] !in r {
        r := r + [chips[k]];
      }
      k := k + 1;
    }
    assert chips[..k] == chips;
  }

  /**
   * `tags`: each project's chips added, one by one, to a `Set`, whose
   * elements are read back in insertion order and cut to ten.
   */
  method Tags(projects: seq<ProjectItem>) returns (tags: seq<string>)
    ensures tags == TagsOf(projects)
  {
    var seen: seq<string> := [];
    var i := 0;
    while i < |projects|
      invariant 0 <= i <= |projects|
      invariant seen == Distinct(AllChips(projects[..i]))
    {
      seen := AddChips(seen, AllChips(projects[..i]), App.Chips(projects[i].tags));
      AllChipsPrefix(projects, i);
      i := i + 1;
    }
    assert projects[..i] == projects;
    assert seen == Distinct(AllChips(projects));
    tags := if |seen| <= 10 then seen else seen[..10];
  }

  /** The skill tags are at most ten, distinct, clean, and exactly the chips seen when fewer than ten are distinct. */
  lemma TagsMeaning(projects: seq<ProjectItem>)
    ensures |TagsOf(projects)| <= 10
    ensures forall i, j :: 0 <= i < j < |TagsOf(projects)| ==> TagsOf(projects)[i] != TagsOf(projects)[j]
    ensures forall t :: t in TagsOf(projects) ==> t in AllChips(projects)
    ensures |Distinct(AllChips(projects))| < 10 ==> forall t :: t in AllChips(projects) ==> t in TagsOf(projects)
  {
  }

  /** Every tag comes from some project's chips. */
  lemma {:induction false} ChipOfSomeProject(projects: seq<ProjectItem>, t: string)
    requires t in AllChips(projects)
    ensures exists i :: 0 <= i < |projects| && t in App.Chips(projects[i].tags)
  {
    var n := |projects|;
    var p := projects[..n - 1];
    if t in AllChips(p) {
      ChipOfSomeProject(p, t);
      var i :| 0 <= i < |p| && t in App.Chips(p[i].tags);
      assert projects[i] == p[i];
    } else {
      assert t in App.Chips(projects[n - 1].tags);
    }
  }

  // ---------------------------------------------------------------------------
  // Background

  /** The members with a background and a timeline of their own. */
  const KnownSlugs: set<string> := {"jai-ganesh", "jayram-reddy", "sai-sandeep"}

  /** A background variant; `shooters` is absent from the variants that do not set it. */
  datatype Variant = Variant(theme: string, speed: real, density: real, blackHoles: real, shooters: Option<bool>)

  const DefaultVariant := Variant("default", 1.0, 1.0, 1.0, Some(true))

  function KnownVariant(slug: string): Option<Variant>
  {
    if slug == "jai-ganesh" then Some(Variant("cool", 1.1, 1.05, 0.9, None))
    else if slug == "jayram-reddy" then Some(Variant("warm", 0.9, 0.95, 1.3, None))
    else if slug == "sai-sandeep" then Some(Variant("neon", 1.3, 1.2, 1.0, Some(true)))
    else None
  }

  /**
   * `variants[member.slug] || default`, looking at the own keys only: the
   * member's own variant, or the default for any other slug.
   */
  function VariantFor(slug: string): (v: Variant)
    ensures slug !in KnownSlugs ==> v == DefaultVariant
    ensures slug in KnownSlugs ==> v.theme != "default"
  {
    var known := KnownVariant(slug);
    if known.Some? then known.value else DefaultVariant
  }

  /**
   * The names `Object.prototype` gives every object literal. A property
   * lookup `variants[slug]` that misses the own keys finds these instead,
   * and each of them is truthy.
   */
  const PrototypeKeys: set<string> := {"constructor", "hasOwnProperty", "isPrototypeOf",
    "propertyIsEnumerable", "toLocaleString", "toString", "valueOf", "__proto__",
    "__defineGetter__", "__defineSetter__", "__lookupGetter__", "__lookupSetter__"}

  /**
   * The `cfgBase` of the page as written: a variant, or an inherited
   * prototype member, whose `theme` is undefined and whose `speed` and
   * `density` scale to NaN.
   */
  datatype CfgBase = OwnOrDefault(variant: Variant) | Inherited

  /** `variants[member.slug] || default` with the prototype lookup JavaScript performs. */
  function CfgBaseAsWritten(slug: string): (c: CfgBase)
    ensures c.Inherited? <==> slug in PrototypeKeys
    ensures c.OwnOrDefault? ==> c.variant == VariantFor(slug)
  {
    if KnownVariant(slug).Some? then OwnOrDefault(KnownVariant(slug).value)
    else if slug in PrototypeKeys then Inherited
    else OwnOrDefault(DefaultVariant)
  }

  /**
   * The lower-case slug `constructor`, which a member named "Constructor"
   * receives, reaches `Object.prototype.constructor` and so has no variant
   * and no default either.
   */
  lemma ConstructorSlugAsWritten()
    ensures forall i :: 0 <= i < |"constructor"| ==> 'a' <= "constructor"[i] <= 'z'
    ensures CfgBaseAsWritten("constructor") == Inherited
    ensures VariantFor("constructor") == DefaultVariant
  {
  }

  /** The particle props of the member page. */
  datatype ParticleProps = ParticleProps(seed: string, theme: string, speed: real, density: real,
                                         blackHoles: real, shooters: Option<bool>, enabled: bool)

  /** Drawn only while effects are on, seeded by the slug, with the variant's speed and density scaled by the settings. */
  function ParticlesFor(effectsOn: bool, slug: string, bgSpeed: real, bgDensity: real): (r: Option<ParticleProps>)
    ensures r.Some? <==> effectsOn
    ensures r.Some? ==> (r.value.seed == slug && r.value.enabled
      && r.value.speed == VariantFor(slug).speed * bgSpeed
      && r.value.density == VariantFor(slug).density * bgDensity
      && r.value.theme == VariantFor(slug).theme && r.value.blackHoles == VariantFor(slug).blackHoles)
  {
    if !effectsOn then None
    else
      var cfg := VariantFor(slug);
      Some(ParticleProps(slug, cfg.theme, cfg.speed * bgSpeed, cfg.density * bgDensity, cfg.blackHoles, cfg.shooters, effectsOn))
  }

  /**
   * With the settings at their defaults, an unknown member's background runs
   * at unit speed and density, `constructor` included.
   */
  lemma DefaultBackground(slug: string)
    requires slug !in KnownSlugs
    ensures ParticlesFor(true, slug, 1.0, 1.0) == Some(ParticleProps(slug, "default", 1.0, 1.0, 1.0, Some(true), true))
  {
  }

  // ---------------------------------------------------------------------------
  // Timeline

  datatype TimelineEntry = TimelineEntry(role: string, org: string, period: string, desc: string)

  const JaiGaneshTimeline: seq<TimelineEntry> := [
    TimelineEntry("Frontend Lead", "KL University Innovation Lab", "2024 - Present",
      "Designs and ships React + Vite experiences with a focus on accessibility and polish."),
    TimelineEntry("Student Developer", "Hackathons & Clubs", "2023 - 2024",
      "Delivered winning prototypes using TypeScript, Tailwind, and Firebase across campus competitions.")]

  const JayramReddyTimeline: seq<TimelineEntry> := [
    TimelineEntry("Backend Engineer", "KL University Innovation Lab", "2024 - Present",
      "Designs resilient APIs and observability pipelines for campus initiatives."),
    TimelineEntry("Systems Volunteer", "Hackathons & Clubs", "2023 - 2024",
      "Maintained infra for student hackathons and automated CI for teams.")]

  const SaiSandeepTimeline: seq<TimelineEntry> := [
    TimelineEntry("Full-Stack Developer", "KL University Innovation Lab", "2024 - Present",
      "Builds end-to-end experiences from Spring Boot APIs to Vite frontends."),
    TimelineEntry("Community Lead", "React KL Chapter", "2023 - Present",
      "Runs weekly code labs focused on accessibility, performance, and DX best practices.")]

  /** The experience timeline: two fixed entries for each of the three members, none for anyone else or before the member loads. */
  function Timeline(member: Option<MemberItem>): (r: seq<TimelineEntry>)
    ensures |r| == if member.Some? && member.value.slug in KnownSlugs then 2 else 0
  {
    if member.None? then []
    else if member.value.slug == "jai-ganesh" then JaiGaneshTimeline
    else if member.value.slug == "jayram-reddy" then JayramReddyTimeline
    else if member.value.slug == "sai-sandeep" then SaiSandeepTimeline
    else []
  }

  /** Every member's timeline starts with a current role at the innovation lab. */
  lemma TimelineCurrentFirst(member: MemberItem)
    requires member.slug in KnownSlugs
    ensures Timeline(Some(member))[0].period == "2024 - Present"
    ensures Timeline(Some(member))[0].org == "KL University Innovation Lab"
  {
  }

  /** The timeline is shown exactly for the members that have a background variant of their own. */
  lemma TimelineMatchesVariant(member: MemberItem)
    ensures |Timeline(Some(member))| > 0 <==> KnownVariant(member.slug).Some?
  {
  }
}
