/**
 * The start-up loader of the member table: seed members when the table is
 * empty, backfill missing slugs, bring the three known members to their
 * canonical field values and upsert the seed projects by title.
 */
module DataLoader {
  import opened Wrappers
  import opened Text
  import Finite
  import PS = ProfileService

  /** A `Member` row as the loader reads and writes it. */
  datatype Member = Member(
    slug: Option<string>, name: Option<string>, role: Option<string>, bio: Option<string>,
    photoUrl: Option<string>, githubUrl: Option<string>, linkedinUrl: Option<string>,
    twitterUrl: Option<string>)

  /** A `Project` row; `owner` is the index of the owning member. */
  datatype ProjectRow = ProjectRow(
    title: Option<string>, summary: Option<string>, description: Option<string>, tags: Option<string>,
    repoUrl: Option<string>, liveUrl: Option<string>, imageUrl: Option<string>, owner: Option<nat>)

  datatype ProjectSeed = ProjectSeed(
    title: string, description: string, tags: string, repoUrl: string,
    liveUrl: Option<string>, imageUrl: string, ownerSlug: string)

  // ---------------------------------------------------------------------------
  // slugify (null-returning variant)

  /** `DataLoader.slugify`: null for null input and for an empty result. */
  function LoaderSlugify(input: Option<string>): (r: Option<string>)
    ensures input.None? ==> r.None?
    ensures r.Some? ==> PS.IsSlug(r.value) && HasText(r)
  {
    if input.None? then None
    else
      var s := PS.SlugCore(input.value);
      PS.DashedBlank(s);
      if IsBlank(s) then None else Some(s)
  }

  /**
   * Where the two `slugify` versions part: a non-null result agrees with the
   * profile service's, and a null one is where the profile service says `"profile"`.
   */
  lemma LoaderSlugifyAgrees(input: Option<string>)
    ensures LoaderSlugify(input).Some? ==> LoaderSlugify(input).value == PS.Slugify(input)
    ensures input.Some? && LoaderSlugify(input).None? ==> PS.Slugify(input) == "profile"
    ensures input.Some? && !HasText(input) ==> LoaderSlugify(input).None?
  {
    if input.Some? && !HasText(input) {
      PS.WhitespaceCore(input.value);
    }
  }

  // ---------------------------------------------------------------------------
  // Slug backfill

  /** The k-th attempt of the backfill loop: `base`, then `base + "-" + k`, where a null base prints as `null`. */
  function Attempt(base: Option<string>, k: nat): Option<string>
  {
    if k == 0 then base else Some(PS.Candidate(base.GetOr("null"), k))
  }

  lemma AttemptInjective(base: Option<string>, j: nat, k: nat)
    requires Attempt(base, j) == Attempt(base, k)
    ensures j == k
  {
    if base.Some? {
      PS.CandidateInjective(base.value, j, k);
    } else if j != 0 && k != 0 {
      PS.CandidateInjective("null", j, k);
    }
  }

  /** The first `n` attempts. */
  ghost function Attempts(base: Option<string>, n: nat): set<Option<string>>
  {
    if n == 0 then {} else Attempts(base, n - 1) + {Attempt(base, n - 1)}
  }

  lemma {:induction false} AttemptIn(base: Option<string>, n: nat, j: nat)
    requires j < n
    ensures Attempt(base, j) in Attempts(base, n)
  {
    if j < n - 1 {
      AttemptIn(base, n - 1, j);
    }
  }

  lemma {:induction false} AttemptNotEarlier(base: Option<string>, n: nat, m: nat)
    requires n <= m
    ensures Attempt(base, m) !in Attempts(base, n)
  {
    if n > 0 {
      AttemptNotEarlier(base, n - 1, m);
      if Attempt(base, n - 1) == Attempt(base, m) {
        AttemptInjective(base, n - 1, m);
      }
    }
  }

  lemma {:induction false} AttemptsCount(base: Option<string>, n: nat)
    ensures |Attempts(base, n)| == n
  {
    if n > 0 {
      AttemptsCount(base, n - 1);
      AttemptNotEarlier(base, n - 1, n - 1);
    }
  }

  /** `s` is the first attempt from `base` that is not in `used`. */
  ghost predicate FirstFree(base: Option<string>, used: set<Option<string>>, s: Option<string>)
  {
    s !in used && exists k: nat :: s == Attempt(base, k) && forall j: nat :: j < k ==> Attempt(base, j) in used
  }

  lemma FirstFreeUnique(base: Option<string>, used: set<Option<string>>, s: Option<string>, t: Option<string>)
    requires FirstFree(base, used, s) && FirstFree(base, used, t)
    ensures s == t
  {
    var k: nat :| s == Attempt(base, k) && forall j: nat :: j < k ==> Attempt(base, j) in used;
    var m: nat :| t == Attempt(base, m) && forall j: nat :: j < m ==> Attempt(base, j) in used;
    assert k == m;
  }

  /** A name that slugifies to nothing gets a null slug while null is unused, then `null-1`. */
  lemma NullNames(used: set<Option<string>>, s: Option<string>)
    requires FirstFree(None, used, s)
    ensures None !in used ==> s == None
    ensures None in used && Some("null-1") !in used ==> s == Some("null-1")
  {
    if None !in used {
      assert FirstFree(None, used, Attempt(None, 0));
      FirstFreeUnique(None, used, s, None);
    } else if Some("null-1") !in used {
      assert DigitChar(1) == '1';
      assert NatToString(1) == "1";
      assert PS.Candidate("null", 1) == "null" + "-" + "1" == "null-1";
      assert Attempt(None, 1) == Some("null-1");
      assert FirstFree(None, used, Attempt(None, 1));
      FirstFreeUnique(None, used, s, Some("null-1"));
    }
  }

  /** The slugs collected by the first loop: every slug that has text. */
  ghost function Kept(ms: seq<Member>): set<Option<string>>
  {
    set j | 0 <= j < |ms| && HasText(ms[j].slug) :: ms[j].slug
  }

  /** The `used` set when the second loop reaches member `|done|`, given the members it has passed. */
  ghost function UsedAt(orig: seq<Member>, done: seq<Member>): set<Option<string>>
    requires |done| <= |orig|
    decreases |done|
  {
    if done == [] then Kept(orig)
    else
      var k := |done| - 1;
      UsedAt(orig, done[..k]) + (if HasText(orig[k].slug) then {} else {done[k].slug})
  }

  lemma {:induction false} UsedAtMonotone(orig: seq<Member>, done: seq<Member>, j: nat)
    requires j <= |done| <= |orig|
    ensures UsedAt(orig, done[..j]) <= UsedAt(orig, done)
    decreases |done|
  {
    if j < |done| {
      assert done[..|done| - 1][..j] == done[..j];
      UsedAtMonotone(orig, done[..|done| - 1], j);
    } else {
      assert done[..j] == done;
    }
  }

  /** What the backfill did to member `j`: a member with a slug is untouched, any other gets the first free attempt. */
  ghost predicate Backfilled(orig: seq<Member>, cur: seq<Member>, j: nat)
    requires j < |orig| == |cur|
  {
    if HasText(orig[j].slug) then cur[j] == orig[j]
    else (cur[j] == orig[j].(slug := cur[j].slug)
      && FirstFree(LoaderSlugify(orig[j].name), UsedAt(orig, cur[..j]), cur[j].slug))
  }

  /** Every attempt from a base with text has text; only a null base gives a null first attempt. */
  lemma AttemptHasText(base: Option<string>, k: nat)
    requires base.Some? ==> HasText(base)
    ensures Attempt(base, k).Some? ==> HasText(Attempt(base, k))
    ensures Attempt(base, k).None? ==> base.None? && k == 0
  {
    if k > 0 {
      var b := base.GetOr("null");
      var c := PS.Candidate(b, k);
      assert c[|b|] == '-';
    }
  }

  /**
   * Every member has a slug with text, except that one member at most, the
   * first whose name gives no slug, has a null slug.
   */
  predicate SlugsFilled(ms: seq<Member>)
  {
    (forall j :: 0 <= j < |ms| ==> HasText(ms[j].slug) || ms[j].slug.None?)
    && (forall i, j :: 0 <= i < j < |ms| && ms[i].slug.None? ==> ms[j].slug.Some?)
  }

  /** After the backfill every slug has text, but for at most one null from a name without a slug. */
  lemma BackfillFills(orig: seq<Member>, cur: seq<Member>)
    requires |orig| == |cur| && forall j :: 0 <= j < |cur| ==> Backfilled(orig, cur, j)
    ensures SlugsFilled(cur)
  {
    forall j | 0 <= j < |cur|
      ensures HasText(cur[j].slug) || cur[j].slug.None?
    {
      assert Backfilled(orig, cur, j);
      if !HasText(orig[j].slug) {
        var base := LoaderSlugify(orig[j].name);
        var k: nat :| cur[j].slug == Attempt(base, k);
        AttemptHasText(base, k);
      }
    }
    forall i, j | 0 <= i < j < |cur| && cur[i].slug.None?
      ensures cur[j].slug.Some?
    {
      assert Backfilled(orig, cur, i) && Backfilled(orig, cur, j);
      var done := cur[..j];
      assert done[..i + 1][..i] == done[..i] == cur[..i];
      assert done[..i + 1][i] == cur[i];
      assert None in UsedAt(orig, done[..i + 1]);
      UsedAtMonotone(orig, done, i + 1);
    }
  }

  /** The number of members without a slug. */
  function CountMissing(ms: seq<Member>): (n: nat)
    ensures n <= |ms|
  {
    if ms == [] then 0
    else CountMissing(ms[..|ms| - 1]) + (if HasText(ms[|ms| - 1].slug) then 0 else 1)
  }

  /** No backfilled slug equals a slug that was already there. */
  lemma BackfillAvoidsKept(orig: seq<Member>, cur: seq<Member>, j: nat, k: nat)
    requires j < |orig| == |cur| && k < |orig|
    requires Backfilled(orig, cur, j) && !HasText(orig[j].slug) && HasText(orig[k].slug)
    ensures cur[j].slug != orig[k].slug
  {
    UsedAtMonotone(orig, cur[..j], 0);
    assert cur[..j][..0] == [];
    assert orig[k].slug in Kept(orig);
  }

  /** Backfilled slugs are pairwise distinct. */
  lemma BackfillDistinct(orig: seq<Member>, cur: seq<Member>, j: nat, k: nat)
    requires j < k < |orig| == |cur|
    requires Backfilled(orig, cur, k) && !HasText(orig[j].slug) && !HasText(orig[k].slug)
    ensures cur[j].slug != cur[k].slug
  {
    var done := cur[..k];
    assert done[..j + 1][..j] == done[..j];
    assert done[..j + 1][j] == cur[j];
    assert cur[j].slug in UsedAt(orig, done[..j + 1]);
    UsedAtMonotone(orig, done, j + 1);
  }

  /** The first loop of the backfill: the slugs that have text. */
  method CollectKept(ms: seq<Member>) returns (used: set<Option<string>>)
    ensures used == Kept(ms)
  {
    used := {};
    var k := 0;
    while k < |ms|
      invariant 0 <= k <= |ms|
      invariant used == set j | 0 <= j < k && HasText(ms[j].slug) :: ms[j].slug
    {
      if HasText(ms[k].slug) {
        used := used + {ms[k].slug};
      }
      k := k + 1;
    }
  }

  /** The inner loop of the backfill: `base`, `base-1`, `base-2`, ... until one is unused. */
  method FreeSlug(base: Option<string>, used: set<Option<string>>) returns (s: Option<string>)
    ensures FirstFree(base, used, s)
  {
    s := base;
    var i := 1;
    while s in used
      invariant i >= 1 && s == Attempt(base, i - 1)
      invariant Attempts(base, i - 1) <= used
      invariant i - 1 <= |used|
      decreases |used| - (i - 1)
    {
      assert Attempts(base, i) == Attempts(base, i - 1) + {s};
      AttemptsCount(base, i);
      Finite.SubsetCount(Attempts(base, i), used);
      s := Some(base.GetOr("null") + "-" + NatToString(i));
      i := i + 1;
    }
    forall j: nat | j < i - 1
      ensures Attempt(base, j) in used
    {
      AttemptIn(base, i - 1, j);
    }
  }

  /** One backfilled member keeps the loop invariant of the backfill. */
  lemma BackfillStep(orig: seq<Member>, cur: seq<Member>, k: nat, s: Option<string>)
    requires k < |orig| == |cur| && cur[k..] == orig[k..] && !HasText(orig[k].slug)
    requires forall j :: 0 <= j < k ==> Backfilled(orig, cur, j)
    requires FirstFree(LoaderSlugify(orig[k].name), UsedAt(orig, cur[..k]), s)
    ensures var next := cur[k := cur[k].(slug := s)];
      next[k + 1..] == orig[k + 1..]
      && (forall j :: 0 <= j <= k ==> Backfilled(orig, next, j))
      && UsedAt(orig, next[..k + 1]) == UsedAt(orig, cur[..k]) + {s}
  {
    var next := cur[k := cur[k].(slug := s)];
    assert cur[k] == orig[k];
    assert next[..k] == cur[..k];
    assert next[k + 1..] == cur[k + 1..];
    forall j | 0 <= j < k
      ensures Backfilled(orig, next, j)
    {
      assert next[..j] == cur[..j];
      assert Backfilled(orig, cur, j);
    }
    assert next[..k + 1][..k] == cur[..k];
  }

  /** A member that has a slug keeps the loop invariant of the backfill. */
  lemma BackfillSkip(orig: seq<Member>, cur: seq<Member>, k: nat)
    requires k < |orig| == |cur| && cur[k..] == orig[k..] && HasText(orig[k].slug)
    requires forall j :: 0 <= j < k ==> Backfilled(orig, cur, j)
    ensures cur[k + 1..] == orig[k + 1..]
    ensures forall j :: 0 <= j <= k ==> Backfilled(orig, cur, j)
    ensures UsedAt(orig, cur[..k + 1]) == UsedAt(orig, cur[..k])
  {
    assert cur[k] == orig[k];
    assert cur[..k + 1][..k] == cur[..k];
  }

  // ---------------------------------------------------------------------------
  // updateExistingMembers

  /** The canonical values for one known member; a `None` field is not reconciled. */
  datatype Canon = Canon(
    name: Option<string>, role: Option<string>, bio: string, photo: string,
    slug: Option<string>, github: string, linkedin: string, twitter: string)

  const JaiCanon: Canon := Canon(None, None,
    "KL University CSE student (ID: 2300030829) focused on crafting accessible, performant web interfaces.",
    "/images/jai-ganesh.jpg", None, "https://github.com/jai-ganesh",
    "https://www.linkedin.com/in/jai-ganesh/", "https://twitter.com/jai_ganesh")

  const JayramCanon: Canon := Canon(Some("Jayram Reddy K"), Some("Backend Engineer"),
    "KL University CSE student (ID: 2300030372), third-year first semester, focused on backend and platform reliability.",
    "/images/jayram-reddy.jpg", Some("jayram-reddy"), "https://github.com/jayram-reddy",
    "https://www.linkedin.com/in/jayram-reddy/", "https://twitter.com/jayramreddy")

  const SaiCanon: Canon := Canon(Some("K. Sai Sandeep"), Some("Full-Stack Engineer"),
    "KL University CSE student (ID: 2300033147) building end-to-end web experiences from API to UI.",
    "/images/sai-sandeep.jpg", Some("sai-sandeep"), "https://github.com/k-sai-sandeep",
    "https://www.linkedin.com/in/ksaisandeep/", "https://twitter.com/ksaisandeep")

  /** A member with every reconciled field at its canonical value. */
  function Canonical(m: Member, c: Canon): (r: Member)
    ensures r.bio == Some(c.bio) && r.photoUrl == Some(c.photo) && r.githubUrl == Some(c.github)
    ensures r.linkedinUrl == Some(c.linkedin) && r.twitterUrl == Some(c.twitter)
    ensures r.name == (if c.name.Some? then c.name else m.name)
    ensures r.role == (if c.role.Some? then c.role else m.role)
    ensures r.slug == (if c.slug.Some? then c.slug else m.slug)
  {
    Member(if c.slug.Some? then c.slug else m.slug, if c.name.Some? then c.name else m.name,
      if c.role.Some? then c.role else m.role, Some(c.bio), Some(c.photo), Some(c.github),
      Some(c.linkedin), Some(c.twitter))
  }

  /** Reconciling twice is reconciling once. */
  lemma CanonicalIdempotent(m: Member, c: Canon)
    ensures Canonical(Canonical(m, c), c) == Canonical(m, c)
  {
  }

  /** Index of the first member whose slug is `s` (`findBySlug`). */
  function FindBySlug(ms: seq<Member>, s: string): (r: Option<nat>)
    ensures r.Some? ==> r.value < |ms| && ms[r.value].slug == Some(s)
    ensures r.Some? ==> forall j :: 0 <= j < r.value ==> ms[j].slug != Some(s)
    ensures r.None? ==> forall j :: 0 <= j < |ms| ==> ms[j].slug != Some(s)
  {
    if ms == [] then None
    else if ms[0].slug == Some(s) then Some(0)
    else
      var r := FindBySlug(ms[1..], s);
      if r.Some? then Some(r.value + 1) else None
  }

  /** The first member with slug `s` is what `FindBySlug` finds. */
  lemma FindBySlugIs(ms: seq<Member>, s: string, k: nat)
    requires k < |ms| && ms[k].slug == Some(s)
    requires forall j :: 0 <= j < k ==> ms[j].slug != Some(s)
    ensures FindBySlug(ms, s) == Some(k)
  {
  }

  lemma FindBySlugNone(ms: seq<Member>, s: string)
    requires forall j :: 0 <= j < |ms| ==> ms[j].slug != Some(s)
    ensures FindBySlug(ms, s).None?
  {
  }

  /** Rewriting a member whose slug is not `s`, to one whose slug is not `s`, does not move the lookup. */
  lemma FindBySlugUntouched(ms: seq<Member>, k: nat, m: Member, s: string)
    requires k < |ms| && ms[k].slug != Some(s) && m.slug != Some(s)
    ensures FindBySlug(ms[k := m], s) == FindBySlug(ms, s)
  {
    var b := FindBySlug(ms, s);
    if b.Some? {
      FindBySlugIs(ms[k := m], s, b.value);
    } else {
      FindBySlugNone(ms[k := m], s);
    }
  }

  /** Writing slug `s` into the member the lookup found, or into any member when none was found, is found next time. */
  lemma FindBySlugSettles(ms: seq<Member>, k: nat, m: Member, s: string)
    requires k < |ms| && m.slug == Some(s)
    requires FindBySlug(ms, s) == Some(k) || FindBySlug(ms, s).None?
    ensures FindBySlug(ms[k := m], s) == Some(k)
  {
    FindBySlugIs(ms[k := m], s, k);
  }

  /** The member a known-member step reconciles: the first slug that is found. */
  function Lookup(ms: seq<Member>, slugs: seq<string>): (r: Option<nat>)
    ensures r.Some? ==> r.value < |ms| && exists i :: 0 <= i < |slugs| && ms[r.value].slug == Some(slugs[i])
    ensures slugs != [] && FindBySlug(ms, slugs[0]).Some? ==> r == FindBySlug(ms, slugs[0])
    ensures r.None? ==> forall i, j :: 0 <= i < |slugs| && 0 <= j < |ms| ==> ms[j].slug != Some(slugs[i])
  {
    if slugs == [] then None
    else if FindBySlug(ms, slugs[0]).Some? then FindBySlug(ms, slugs[0])
    else Lookup(ms, slugs[1..])
  }

  /** One known-member step: the members afterwards and whether a save was issued. */
  function Reconciled(ms: seq<Member>, slugs: seq<string>, c: Canon): (r: (seq<Member>, bool))
    ensures |r.0| == |ms|
    ensures r.1 <==> r.0 != ms
  {
    var k := Lookup(ms, slugs);
    if k.None? then (ms, false)
    else (ms[k.value := Canonical(ms[k.value], c)], Canonical(ms[k.value], c) != ms[k.value])
  }

  /** `updateExistingMembers`: the three steps in order, and the number of saves. */
  function UpdateExisting(ms: seq<Member>): (r: (seq<Member>, nat))
    ensures |r.0| == |ms| && r.1 <= 3
    ensures r.1 == 0 <==> r.0 == ms
  {
    var (a, s1) := Reconciled(ms, JaiSlugs, JaiCanon);
    var (b, s2) := Reconciled(a, JayramSlugs, JayramCanon);
    var (c, s3) := Reconciled(b, SaiSlugs, SaiCanon);
    (c, (if s1 then 1 else 0) + (if s2 then 1 else 0) + (if s3 then 1 else 0))
  }

  /** A write that keeps every one of `slugs` away from member `k` leaves the lookup where it was. */
  lemma {:induction false} LookupUntouched(ms: seq<Member>, k: nat, m: Member, slugs: seq<string>)
    requires k < |ms|
    requires forall i :: 0 <= i < |slugs| ==> ms[k].slug != Some(slugs[i]) && m.slug != Some(slugs[i])
    ensures Lookup(ms[k := m], slugs) == Lookup(ms, slugs)
  {
    if slugs != [] {
      FindBySlugUntouched(ms, k, m, slugs[0]);
      LookupUntouched(ms, k, m, slugs[1..]);
    }
  }

  /** Giving the member the lookup found its preferred slug makes the next lookup find it at once. */
  lemma LookupSettles(ms: seq<Member>, k: nat, m: Member, slugs: seq<string>)
    requires |slugs| > 0 && Lookup(ms, slugs) == Some(k) && m.slug == Some(slugs[0])
    ensures Lookup(ms[k := m], slugs) == Some(k)
  {
    FindBySlugSettles(ms, k, m, slugs[0]);
  }

  const JaiSlugs: seq<string> := ["jai-ganesh"]
  const JayramSlugs: seq<string> := ["jayram-reddy", "brian-smith"]
  const SaiSlugs: seq<string> := ["sai-sandeep", "chloe-lee"]

  /** The member a step would reconcile is absent or already canonical. */
  predicate Settled(ms: seq<Member>, slugs: seq<string>, c: Canon)
  {
    var k := Lookup(ms, slugs);
    k.None? || ms[k.value] == Canonical(ms[k.value], c)
  }

  /** A step writes a slug with text into a member found by its slug, so filled slugs stay filled. */
  lemma ReconciledKeepsSlugs(ms: seq<Member>, slugs: seq<string>, c: Canon)
    requires SlugsFilled(ms) && (c.slug.Some? ==> HasText(c.slug))
    ensures SlugsFilled(Reconciled(ms, slugs, c).0)
  {
    var k := Lookup(ms, slugs);
    if k.Some? {
      assert ms[k.value].slug.Some?;
    }
  }

  /** `updateExistingMembers` keeps the slugs filled. */
  lemma UpdateExistingKeepsSlugs(ms: seq<Member>)
    requires SlugsFilled(ms)
    ensures SlugsFilled(UpdateExisting(ms).0)
  {
    assert JayramCanon.slug.value[0] == 'j' && SaiCanon.slug.value[0] == 's';
    var a := Reconciled(ms, JaiSlugs, JaiCanon).0;
    var b := Reconciled(a, JayramSlugs, JayramCanon).0;
    ReconciledKeepsSlugs(ms, JaiSlugs, JaiCanon);
    ReconciledKeepsSlugs(a, JayramSlugs, JayramCanon);
    ReconciledKeepsSlugs(b, SaiSlugs, SaiCanon);
  }

  /** A settled step changes nothing and saves nothing. */
  lemma SettledNoop(ms: seq<Member>, slugs: seq<string>, c: Canon)
    requires Settled(ms, slugs, c)
    ensures Reconciled(ms, slugs, c) == (ms, false)
  {
    var k := Lookup(ms, slugs);
    if k.Some? {
      assert ms[k.value := ms[k.value]] == ms;
    }
  }

  /** A step settles itself, when the slug it writes is the one it looks up first. */
  lemma SettledAfter(ms: seq<Member>, slugs: seq<string>, c: Canon)
    requires slugs != [] && (c.slug == Some(slugs[0]) || (c.slug.None? && |slugs| == 1))
    ensures Settled(Reconciled(ms, slugs, c).0, slugs, c)
  {
    var k := Lookup(ms, slugs);
    if k.Some? {
      var m := Canonical(ms[k.value], c);
      CanonicalIdempotent(ms[k.value], c);
      LookupSettles(ms, k.value, m, slugs);
    }
  }

  /** A step on other slugs, writing none of `slugs`, keeps a settled step settled. */
  lemma SettledKept(ms: seq<Member>, slugs: seq<string>, c: Canon, others: seq<string>, d: Canon)
    requires Settled(ms, slugs, c)
    requires forall i, j :: 0 <= i < |others| && 0 <= j < |slugs| ==> others[i] != slugs[j]
    requires d.slug.Some? ==> d.slug.value in others
    ensures Settled(Reconciled(ms, others, d).0, slugs, c)
  {
    var k := Lookup(ms, others);
    if k.Some? {
      var m := Canonical(ms[k.value], d);
      LookupUntouched(ms, k.value, m, slugs);
      var f := Lookup(ms, slugs);
      if f.Some? {
        assert ms[k.value := m][f.value] == ms[f.value];
      }
    }
  }

  /** After `updateExistingMembers` each of the three known members is absent or canonical. */
  lemma UpdateExistingSettles(ms: seq<Member>)
    ensures var c := UpdateExisting(ms).0;
      Settled(c, JaiSlugs, JaiCanon) && Settled(c, JayramSlugs, JayramCanon) && Settled(c, SaiSlugs, SaiCanon)
  {
    var a := Reconciled(ms, JaiSlugs, JaiCanon).0;
    var b := Reconciled(a, JayramSlugs, JayramCanon).0;
    SettledAfter(ms, JaiSlugs, JaiCanon);
    SettledAfter(a, JayramSlugs, JayramCanon);
    SettledKept(a, JaiSlugs, JaiCanon, JayramSlugs, JayramCanon);
    SettledAfter(b, SaiSlugs, SaiCanon);
    SettledKept(b, JaiSlugs, JaiCanon, SaiSlugs, SaiCanon);
    SettledKept(b, JayramSlugs, JayramCanon, SaiSlugs, SaiCanon);
  }

  /**
   * `updateExistingMembers` is idempotent: a second run finds the same three
   * members, already canonical, and issues no save.
   */
  lemma UpdateExistingTwice(ms: seq<Member>)
    ensures UpdateExisting(UpdateExisting(ms).0) == (UpdateExisting(ms).0, 0)
  {
    var c := UpdateExisting(ms).0;
    UpdateExistingSettles(ms);
    SettledNoop(c, JaiSlugs, JaiCanon);
    SettledNoop(c, JayramSlugs, JayramCanon);
    SettledNoop(c, SaiSlugs, SaiCanon);
  }

  // ---------------------------------------------------------------------------
  // syncProjects

  const ProjectSeeds: seq<ProjectSeed> := [
    ProjectSeed("Design System Kit", "Reusable components and tokens for multi-brand apps.",
      "react,storybook,design-system", "https://github.com/k-sai-sandeep/design-system-kit",
      Some("https://saisandeep.dev/design-system"),
      "https://images.unsplash.com/photo-1582719478250-c89cae4dc85b?auto=format&fit=crop&w=1200&q=80",
      "sai-sandeep"),
    ProjectSeed("Realtime Chat App", "A WebSocket powered chat for teams with typing indicators and theme support.",
      "react,websocket,java,spring", "https://github.com/jai-ganesh/realtime-chat",
      Some("https://chat.jaiganesh.dev"),
      "https://images.unsplash.com/photo-1553729459-efe14ef6055d?auto=format&fit=crop&w=1200&q=80",
      "jai-ganesh"),
    ProjectSeed("Accessibility Audit Toolkit", "Automated accessibility reporting for design handoffs and production builds.",
      "react,accessibility,testing", "https://github.com/jai-ganesh/a11y-toolkit", None,
      "https://images.unsplash.com/photo-1553532435-93d5f27156fc?auto=format&fit=crop&w=1200&q=80",
      "jai-ganesh"),
    ProjectSeed("Service Mesh Gateway", "Unified gateway with rate limiting and tracing.",
      "spring,java,kubernetes,observability", "https://github.com/jayram-reddy/service-mesh-gateway",
      Some("https://jayram.dev/service-mesh"),
      "https://images.unsplash.com/photo-1518770660439-4636190af475?auto=format&fit=crop&w=1200&q=80",
      "jayram-reddy"),
    ProjectSeed("ETL Orchestrator", "Scheduled data pipelines with visual monitoring.",
      "java,etl,sql", "https://github.com/jayram-reddy/etl-orchestrator", None,
      "https://images.unsplash.com/photo-1558494949-ef010cbdcc31?auto=format&fit=crop&w=1200&q=80",
      "jayram-reddy"),
    ProjectSeed("DeployOps Dashboard", "CI/CD insights with environment rollbacks.",
      "devops,ci-cd,react", "https://github.com/k-sai-sandeep/deployops-dashboard",
      Some("https://ops.saisandeep.dev"),
      "https://images.unsplash.com/photo-1525182008055-f88b95ff7980?auto=format&fit=crop&w=1200&q=80",
      "sai-sandeep")
  ]

  /** The project row before `syncProjects` writes a seed into it. */
  const NewProject: ProjectRow := ProjectRow(None, None, None, None, None, None, None, None)

  /** A seed written into `row` through the setters: the summary is the row's own. */
  function Upsert(row: ProjectRow, seed: ProjectSeed, owner: nat): (r: ProjectRow)
    ensures SeededBy(r, seed, owner) && r.summary == row.summary
  {
    row.(title := Some(seed.title), description := Some(seed.description), tags := Some(seed.tags),
      repoUrl := Some(seed.repoUrl), liveUrl := seed.liveUrl, imageUrl := Some(seed.imageUrl),
      owner := Some(owner))
  }

  /** `row` carries every field the seed sets. */
  predicate SeededBy(row: ProjectRow, seed: ProjectSeed, owner: nat)
  {
    row.title == Some(seed.title) && row.description == Some(seed.description)
    && row.tags == Some(seed.tags) && row.repoUrl == Some(seed.repoUrl)
    && row.liveUrl == seed.liveUrl && row.imageUrl == Some(seed.imageUrl) && row.owner == Some(owner)
  }

  predicate TitleMatches(row: ProjectRow, title: string)
  {
    row.title.Some? && Lower(row.title.value) == Lower(title)
  }

  /** Index of the first project whose title equals `title` ignoring case (`findByTitleIgnoreCase`). */
  function FindByTitle(ps: seq<ProjectRow>, title: string): (r: Option<nat>)
    ensures r.Some? ==> r.value < |ps| && TitleMatches(ps[r.value], title)
    ensures r.Some? ==> forall j :: 0 <= j < r.value ==> !TitleMatches(ps[j], title)
    ensures r.None? ==> forall j :: 0 <= j < |ps| ==> !TitleMatches(ps[j], title)
  {
    if ps == [] then None
    else if TitleMatches(ps[0], title) then Some(0)
    else
      var r := FindByTitle(ps[1..], title);
      if r.Some? then Some(r.value + 1) else None
  }

  /** The owner `membersBySlug` maps a slug to: the first member carrying it. */
  function OwnerOf(ms: seq<Member>, slug: string): Option<nat>
  {
    if IsBlank(slug) then None else FindBySlug(ms, slug)
  }

  /** The number of seeds whose owner is present, hence the number of project saves. */
  function CountOwned(ms: seq<Member>, seeds: seq<ProjectSeed>): (n: nat)
    ensures n <= |seeds|
  {
    if seeds == [] then 0
    else CountOwned(ms, seeds[..|seeds| - 1]) + (if OwnerOf(ms, seeds[|seeds| - 1].ownerSlug).Some? then 1 else 0)
  }

  /** Seed titles differ from one another ignoring case. */
  ghost predicate DistinctTitles(seeds: seq<ProjectSeed>)
  {
    forall i, j :: 0 <= i < j < |seeds| ==> Lower(seeds[i].title) != Lower(seeds[j].title)
  }

  lemma LowerDiffers(x: string, y: string, k: nat)
    requires k < |x| && k < |y| && LowerChar(x[k]) != LowerChar(y[k])
    ensures Lower(x) != Lower(y)
  {
    assert Lower(x)[k] != Lower(y)[k];
  }

  /** No two of the six seeds collide under `findByTitleIgnoreCase`. */
  lemma SeedTitlesDistinct()
    ensures DistinctTitles(ProjectSeeds)
  {
    forall i, j | 0 <= i < j < |ProjectSeeds|
      ensures Lower(ProjectSeeds[i].title) != Lower(ProjectSeeds[j].title)
    {
      if i == 0 && j == 5 {
        LowerDiffers(ProjectSeeds[i].title, ProjectSeeds[j].title, 2);
      } else {
        LowerDiffers(ProjectSeeds[i].title, ProjectSeeds[j].title, 0);
      }
    }
  }

  /** The first row matching `title` is what `FindByTitle` finds. */
  lemma FindByTitleIs(ps: seq<ProjectRow>, title: string, k: nat)
    requires k < |ps| && TitleMatches(ps[k], title)
    requires forall j :: 0 <= j < k ==> !TitleMatches(ps[j], title)
    ensures FindByTitle(ps, title) == Some(k)
  {
  }

  lemma FindByTitleNone(ps: seq<ProjectRow>, title: string)
    requires forall j :: 0 <= j < |ps| ==> !TitleMatches(ps[j], title)
    ensures FindByTitle(ps, title).None?
  {
  }

  /** Changing only row `here`, into a row that does not match, or appending such a row, does not move a lookup. */
  lemma FindByTitleUntouched(before: seq<ProjectRow>, after: seq<ProjectRow>, here: nat, title: string)
    requires here <= |before| && |after| == (if here < |before| then |before| else |before| + 1)
    requires forall j :: 0 <= j < |before| && j != here ==> after[j] == before[j]
    requires !TitleMatches(after[here], title)
    requires FindByTitle(before, title).Some? ==> FindByTitle(before, title).value != here
    ensures FindByTitle(after, title) == FindByTitle(before, title)
  {
    var b := FindByTitle(before, title);
    if b.Some? {
      FindByTitleIs(after, title, b.value);
    } else {
      FindByTitleNone(after, title);
    }
  }

  /** The row the loop writes to is the one the lookup finds next. */
  lemma FindByTitlePlaced(before: seq<ProjectRow>, after: seq<ProjectRow>, here: nat, title: string)
    requires here <= |before| && |after| == (if here < |before| then |before| else |before| + 1)
    requires forall j :: 0 <= j < |before| && j != here ==> after[j] == before[j]
    requires TitleMatches(after[here], title)
    requires FindByTitle(before, title) == (if here < |before| then Some(here) else None)
    ensures FindByTitle(after, title) == Some(here)
  {
    FindByTitleIs(after, title, here);
  }

  /** One iteration of `syncProjects` for a seed whose owner is present. */
  function UpsertInto(ps: seq<ProjectRow>, seed: ProjectSeed, owner: nat): (r: seq<ProjectRow>)
    ensures |ps| <= |r| <= |ps| + 1
    ensures forall j :: 0 <= j < |ps| && !TitleMatches(ps[j], seed.title) ==> r[j] == ps[j]
    ensures forall j :: 0 <= j < |ps| ==> r[j].summary == ps[j].summary
    ensures FindByTitle(r, seed.title).Some? && SeededBy(r[FindByTitle(r, seed.title).value], seed, owner)
  {
    var at := FindByTitle(ps, seed.title);
    var r := if at.Some? then ps[at.value := Upsert(ps[at.value], seed, owner)]
      else ps + [Upsert(NewProject, seed, owner)];
    var here := if at.Some? then at.value else |ps|;
    FindByTitlePlaced(ps, r, here, seed.title);
    r
  }

  /** Every seed before `i` with a present owner is found by title, carrying its fields. */
  ghost predicate SyncedUpTo(ms: seq<Member>, ps: seq<ProjectRow>, seeds: seq<ProjectSeed>, i: nat)
    requires i <= |seeds|
  {
    forall k :: 0 <= k < i && OwnerOf(ms, seeds[k].ownerSlug).Some? ==>
      var j := FindByTitle(ps, seeds[k].title);
      j.Some? && SeededBy(ps[j.value], seeds[k], OwnerOf(ms, seeds[k].ownerSlug).value)
  }

  /** Upserting seed `i` leaves alone every original project that no seed's title matches. */
  lemma UpsertIntoUntouched(projects: seq<ProjectRow>, ps: seq<ProjectRow>, seeds: seq<ProjectSeed>, i: nat, owner: nat)
    requires i < |seeds| && |projects| <= |ps|
    requires forall j :: 0 <= j < |projects| && (forall k :: 0 <= k < |seeds| ==> !TitleMatches(projects[j], seeds[k].title)) ==>
      ps[j] == projects[j]
    ensures var r := UpsertInto(ps, seeds[i], owner);
      forall j :: 0 <= j < |projects| && (forall k :: 0 <= k < |seeds| ==> !TitleMatches(projects[j], seeds[k].title)) ==>
        r[j] == projects[j]
  {
    var r := UpsertInto(ps, seeds[i], owner);
    forall j | 0 <= j < |projects| && (forall k :: 0 <= k < |seeds| ==> !TitleMatches(projects[j], seeds[k].title))
      ensures r[j] == projects[j]
    {
      assert !TitleMatches(ps[j], seeds[i].title);
    }
  }

  /**
   * The loop of `syncProjects` on a project table: every seed with a present
   * owner is upserted, each counted as one save.
   */
  method SyncInto(members: seq<Member>, projects: seq<ProjectRow>, seeds: seq<ProjectSeed>)
    returns (ps: seq<ProjectRow>, n: nat)
    requires DistinctTitles(seeds)
    ensures SyncedUpTo(members, ps, seeds, |seeds|)
    ensures |projects| <= |ps| <= |projects| + |seeds|
    ensures forall j :: 0 <= j < |projects| && (forall i :: 0 <= i < |seeds| ==> !TitleMatches(projects[j], seeds[i].title)) ==>
      ps[j] == projects[j]
    ensures forall j :: 0 <= j < |projects| ==> ps[j].summary == projects[j].summary
    ensures n == CountOwned(members, seeds)
  {
    ps, n := projects, 0;
    var i := 0;
    while i < |seeds|
      invariant 0 <= i <= |seeds|
      invariant |projects| <= |ps| <= |projects| + i
      invariant SyncedUpTo(members, ps, seeds, i)
      invariant forall j :: 0 <= j < |projects| && (forall k :: 0 <= k < |seeds| ==> !TitleMatches(projects[j], seeds[k].title)) ==>
        ps[j] == projects[j]
      invariant forall j :: 0 <= j < |projects| ==> ps[j].summary == projects[j].summary
      invariant n == CountOwned(members, seeds[..i])
    {
      assert seeds[..i + 1][..i] == seeds[..i];
      var owner := OwnerOf(members, seeds[i].ownerSlug);
      if owner.Some? {
        UpsertIntoKeeps(members, ps, seeds, i, owner.value);
        UpsertIntoUntouched(projects, ps, seeds, i, owner.value);
        ps := UpsertInto(ps, seeds[i], owner.value);
        n := n + 1;
      } else {
        assert SyncedUpTo(members, ps, seeds, i + 1);
      }
      i := i + 1;
    }
    assert seeds[..i] == seeds;
  }

  /** Upserting seed `i` does not disturb the seeds upserted before it. */
  lemma UpsertIntoKeeps(ms: seq<Member>, ps: seq<ProjectRow>, seeds: seq<ProjectSeed>, i: nat, owner: nat)
    requires DistinctTitles(seeds) && i < |seeds| && SyncedUpTo(ms, ps, seeds, i)
    requires OwnerOf(ms, seeds[i].ownerSlug) == Some(owner)
    ensures SyncedUpTo(ms, UpsertInto(ps, seeds[i], owner), seeds, i + 1)
  {
    var seed := seeds[i];
    var r := UpsertInto(ps, seed, owner);
    var at := FindByTitle(ps, seed.title);
    var here := if at.Some? then at.value else |ps|;
    forall k | 0 <= k < i && OwnerOf(ms, seeds[k].ownerSlug).Some?
      ensures var j := FindByTitle(r, seeds[k].title);
        j.Some? && SeededBy(r[j.value], seeds[k], OwnerOf(ms, seeds[k].ownerSlug).value)
    {
      assert Lower(seeds[k].title) != Lower(seed.title);
      assert !TitleMatches(r[here], seeds[k].title);
      FindByTitleUntouched(ps, r, here, seeds[k].title);
    }
  }

  // ---------------------------------------------------------------------------
  // The loader

  class Loader {
    var members: seq<Member>
    var projects: seq<ProjectRow>
    /** Number of repository `save` calls issued. */
    var saves: nat

    constructor (members0: seq<Member>, projects0: seq<ProjectRow>)
      ensures members == members0 && projects == projects0 && saves == 0
    {
      members, projects, saves := members0, projects0, 0;
    }

    /** Rows inserted, one save each, only into an empty table. */
    method InsertIfEmpty(rows: seq<Member>)
      modifies this
      ensures |old(members)| == 0 ==> members == rows && saves == old(saves) + |rows|
      ensures |old(members)| != 0 ==> members == old(members) && saves == old(saves)
      ensures projects == old(projects)
    {
      if |members| == 0 {
        members := rows;
        saves := saves + |rows|;
      }
    }

    /** The three seed members, inserted only into an empty table. */
    method SeedMembers()
      modifies this
      ensures |old(members)| == 0 ==> members == SeedRows() && saves == old(saves) + 3
      ensures |old(members)| != 0 ==> members == old(members) && saves == old(saves)
      ensures projects == old(projects)
    {
      InsertIfEmpty(SeedRows());
    }

    /** The slug backfill of `run`: every member without a slug gets the first free attempt from its name. */
    method Backfill()
      modifies this
      ensures |members| == |old(members)| && projects == old(projects)
      ensures forall j :: 0 <= j < |members| ==> Backfilled(old(members), members, j)
      ensures saves == old(saves) + CountMissing(old(members))
    {
      var orig := members;
      var ms := members;
      var used := CollectKept(orig);
      var n := 0;
      var k := 0;
      while k < |ms|
        invariant 0 <= k <= |ms| == |orig|
        invariant ms[k..] == orig[k..]
        invariant forall j :: 0 <= j < k ==> Backfilled(orig, ms, j)
        invariant used == UsedAt(orig, ms[..k])
        invariant n == CountMissing(orig[..k])
        invariant members == orig && projects == old(projects) && saves == old(saves)
      {
        assert orig[..k + 1][..k] == orig[..k];
        if !HasText(ms[k].slug) {
          var s := FreeSlug(LoaderSlugify(ms[k].name), used);
          BackfillStep(orig, ms, k, s);
          ms := ms[k := ms[k].(slug := s)];
          used := used + {s};
          n := n + 1;
        } else {
          BackfillSkip(orig, ms, k);
        }
        k := k + 1;
      }
      assert orig[..k] == orig;
      members := ms;
      saves := saves + n;
    }

    /** Reconciles the member found under the first of `slugs` that exists. */
    method Reconcile(slugs: seq<string>, c: Canon)
      modifies this
      ensures members == Reconciled(old(members), slugs, c).0
      ensures saves == old(saves) + (if Reconciled(old(members), slugs, c).1 then 1 else 0)
      ensures projects == old(projects)
    {
      var found := Lookup(members, slugs);
      if found.None? {
        return;
      }
      var k := found.value;
      var m := members[k];
      var updated := false;
      if c.name.Some? && m.name != c.name { m := m.(name := c.name); updated := true; }
      if c.role.Some? && m.role != c.role { m := m.(role := c.role); updated := true; }
      if m.bio != Some(c.bio) { m := m.(bio := Some(c.bio)); updated := true; }
      if m.photoUrl != Some(c.photo) { m := m.(photoUrl := Some(c.photo)); updated := true; }
      if c.slug.Some? && m.slug != c.slug { m := m.(slug := c.slug); updated := true; }
      // for Jai the source also tests null and blank first; the canonical values are neither
      if m.githubUrl != Some(c.github) { m := m.(githubUrl := Some(c.github)); updated := true; }
      if m.linkedinUrl != Some(c.linkedin) { m := m.(linkedinUrl := Some(c.linkedin)); updated := true; }
      if m.twitterUrl != Some(c.twitter) { m := m.(twitterUrl := Some(c.twitter)); updated := true; }
      assert m == Canonical(members[k], c);
      assert updated <==> m != members[k];
      members := members[k := m];
      if updated {
        saves := saves + 1;
      }
    }

    /** `updateExistingMembers`. */
    method UpdateExistingMembers()
      modifies this
      ensures members == UpdateExisting(old(members)).0
      ensures saves == old(saves) + UpdateExisting(old(members)).1 && projects == old(projects)
    {
      Reconcile(JaiSlugs, JaiCanon);
      Reconcile(JayramSlugs, JayramCanon);
      Reconcile(SaiSlugs, SaiCanon);
    }

    /**
     * `syncProjects`: every seed whose owner slug is present is written into
     * the first project with its title ignoring case, or into a new project.
     */
    method SyncProjects(seeds: seq<ProjectSeed>)
      requires DistinctTitles(seeds)
      modifies this
      ensures members == old(members)
      ensures SyncedUpTo(members, projects, seeds, |seeds|)
      ensures |old(projects)| <= |projects| <= |old(projects)| + |seeds|
      ensures forall j :: 0 <= j < |old(projects)| && (forall i :: 0 <= i < |seeds| ==> !TitleMatches(old(projects)[j], seeds[i].title)) ==>
        projects[j] == old(projects)[j]
      ensures forall j :: 0 <= j < |old(projects)| ==> projects[j].summary == old(projects)[j].summary
      ensures saves == old(saves) + CountOwned(members, seeds)
    {
      var ps, n := SyncInto(members, projects, seeds);
      projects := ps;
      saves := saves + n;
    }

    /** `run`: seed, backfill, reconcile the known members, upsert the seed projects. */
    method Run()
      modifies this
      ensures |old(members)| == 0 ==> |members| == 3
      ensures |old(members)| != 0 ==> |members| == |old(members)|
      ensures SyncedUpTo(members, projects, ProjectSeeds, |ProjectSeeds|)
      ensures SlugsFilled(members)
      ensures Settled(members, JaiSlugs, JaiCanon) && Settled(members, JayramSlugs, JayramCanon)
        && Settled(members, SaiSlugs, SaiCanon)
    {
      SeedMembers();
      ghost var seeded := members;
      Backfill();
      BackfillFills(seeded, members);
      ghost var filled := members;
      UpdateExistingMembers();
      UpdateExistingKeepsSlugs(filled);
      UpdateExistingSettles(filled);
      SeedTitlesDistinct();
      SyncProjects(ProjectSeeds);
    }
  }

  /** The seed members `run` inserts into an empty table. */
  const JaiGanesh := Member(Some("jai-ganesh"), Some("P. Jai Ganesh"), Some("Frontend Engineer"),
    Some("KL University CSE student (ID: 2300030829) focused on crafting accessible, performant web interfaces."),
    Some("/images/jai-ganesh.jpg"), Some("https://github.com/jai-ganesh"),
    Some("https://www.linkedin.com/in/jai-ganesh/"), Some("https://twitter.com/jai_ganesh"))

  const JayramReddy := Member(Some("jayram-reddy"), Some("Jayram Reddy K"), Some("Backend Engineer"),
    Some("KL University CSE student (ID: 2300030372), third-year first semester, focused on backend and platform reliability."),
    Some("/images/jayram-reddy.jpg"), Some("https://github.com/jayram-reddy"),
    Some("https://www.linkedin.com/in/jayram-reddy/"), Some("https://twitter.com/jayramreddy"))

  const SaiSandeep := Member(Some("sai-sandeep"), Some("K. Sai Sandeep"), Some("Full-Stack Engineer"),
    Some("KL University CSE student (ID: 2300033147) building end-to-end web experiences from API to UI."),
    Some("/images/sai-sandeep.jpg"), Some("https://github.com/k-sai-sandeep"),
    Some("https://www.linkedin.com/in/ksaisandeep/"), Some("https://twitter.com/ksaisandeep"))

  function SeedRows(): (r: seq<Member>)
    ensures |r| == 3
  {
    [JaiGanesh, JayramReddy, SaiSandeep]
  }
}
