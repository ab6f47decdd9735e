# Team portfolio: a verified model of its core

A model, in Dafny, of the core of a team portfolio site. The site has three parts.

- A Spring Boot backend handles accounts and sign-in, member profiles with unique slugs, projects, work experiences, rotating refresh tokens, a per-client rate limiter, an ordered table of access rules, a Bearer-token filter, an exception-to-status table, ETags on the project listing, and a start-up loader that seeds and repairs the member data.
- A React frontend includes:
  - two authentication contexts;
  - the member dashboard and the member page;
  - persisted settings and a cursor trail;
  - a procedurally generated galaxy background;
  - an error boundary with retry and backoff;
  - a performance monitor and its dashboard;
  - a PWA manager and its install banner;
  - a lazily loaded responsive image;
  - schema.org structured data.
- A service worker and two build scripts produce the sitemap, `robots.txt` and the responsive image variants.

Each source file is one module. Supporting modules:

| Module | Purpose |
|---|---|
| `Wrappers` | option and result types |
| `Text` | Java and JavaScript string operations |
| `Browser` | truthiness and `localStorage` |
| `Entities` | the profile, experience and project records the services edit |
| `Sorting` | a stable insertion sort standing in for the stream sort |

How the code is modelled:

- **Pure code.** Functions over datatypes.
- **In-place updates.** State the code updates in place becomes a class. Examples:
  - the refresh-token table;
  - the rate-limit windows;
  - the member and project tables of the loader;
  - the metric buffer;
  - the event registry;
  - the cache storage of the service worker;
  - React component state.
- **Loops.** Methods whose loops carry the invariants that tie them to a specification function.
- **Values outside the program.** These are parameters:
  - clocks, `Math.random`, network and storage results;
  - digests, `parseInt`, `toFixed`;
  - the outcome of browser prompts.
- **Absent values.** Java `null` and JavaScript `undefined` are `None`.
- **Integers.** Unbounded, with 32-bit arithmetic written out where the code relies on it (the seeded generator of the background works on `bv32`).

## Model

| member | source | states |
|---|---|---|
| Particles.HashSeed | frontend/src/components/Particles.jsx:41-43 | the hash loop over the seed text yields the 31-multiplier hash of its UTF-16 code units, as the unsigned `h >>> 0` value in [0, 2^32) |
| Particles.SameTextSameStart | frontend/src/components/Particles.jsx:40-43 | any two seeds with the same non-empty text, number or string, are both truthy and start the generator in the same state, since `String(seed)` is all the hash reads |
| Particles.UnitInterval | frontend/src/components/Particles.jsx:44 | an unsigned 32-bit value divided by 4294967296 lies in [0, 1) |
| Particles.MathRandom.Next | frontend/src/components/Particles.jsx:142 | `Math.random` returns the next value of its draw sequence, in [0, 1), and advances by exactly one draw |
| Particles.Rng.constructor | frontend/src/components/Particles.jsx:39-45 | the generator is seeded exactly when the seed is truthy, and then its state is the hash of the seed text |
| Particles.Rng.Next | frontend/src/components/Particles.jsx:44 | `rng()` lies in [0, 1); seeded, it advances the state by 0x6D2B79F5 and returns the tempered state without touching `Math.random`; unseeded, it is the next `Math.random` draw |
| Particles.Rng.NextDraw | frontend/src/components/Particles.jsx:44 | the value the next `rng()` call returns, read without drawing it, lies in [0, 1) |
| Particles.Rng.Rand | frontend/src/components/Particles.jsx:46 | `rand(min, max)` lies in [min, max] (below max when min < max) and consumes one `Math.random` draw only when unseeded |
| Particles.Rng.Choice | frontend/src/components/Particles.jsx:47 | `choice(arr)` returns an element of a non-empty array at a valid index, `undefined` for an empty one |
| Particles.Scale | frontend/src/components/Particles.jsx:46 | a draw in [0, 1) scaled onto [min, max) stays within it |
| Particles.ScaledIndex | frontend/src/components/Particles.jsx:47 | `Math.floor(u * n)` is a valid index for a non-empty array |
| Particles.Trunc | frontend/src/components/Particles.jsx:101 | the bitwise-or with zero truncates toward zero |
| Particles.GalaxyCount | frontend/src/components/Particles.jsx:51-52 | the galaxy count is between 3 and 7 and equals the rounded area per 450000/density unit when strictly inside |
| Particles.GalaxyCountMonotone | frontend/src/components/Particles.jsx:51-52 | a larger area never gives fewer galaxies |
| Particles.BlackHoleCount | frontend/src/components/Particles.jsx:87 | at least 3 black holes; above 3 it is round(galaxies * 0.4 * factor) |
| Particles.NebulaCount | frontend/src/components/Particles.jsx:101 | a random number in [3, 7) truncated by a bitwise-or with zero gives three to six nebulae |
| Particles.ParticleCount | frontend/src/components/Particles.jsx:137-138 | the particle count is between 300 and 900 and is the floor of the area per 9000/density unit when strictly inside |
| Particles.ParticleCountFloors | frontend/src/components/Particles.jsx:137 | the count uses floor, not round: whenever the area per unit is strictly inside (300, 900) with a fractional part of at least one half, it is one less than the rounded value |
| Particles.ArmOf | frontend/src/components/Particles.jsx:142 | the spiral arm is a valid arm index of the galaxy |
| Particles.ArmNotReproducible | frontend/src/components/Particles.jsx:142 | the arm comes from `Math.random`: in every galaxy with two or more arms, a draw below 1/arms gives the first arm and a draw of at least (arms-1)/arms the last, so a seeded galaxy's particles land on different arms from run to run |
| Particles.ToggleRebuilds | frontend/src/components/Particles.jsx:393 | the effect reruns exactly when some prop changes, because every prop is a dependency; in particular toggling `enabled` rebuilds the universe |
| Particles.FrameDelta | frontend/src/components/Particles.jsx:183 | the frame delta in 60 Hz frames is capped at 3 and is the exact delta below the cap |
| Particles.Wrap | frontend/src/components/Particles.jsx:195-198 | one coordinate's edge wrap: values inside the margin are kept, past the low edge jump to the high edge and vice versa; the result lies within the margins |
| Particles.MoveGalaxy | frontend/src/components/Particles.jsx:192-198 | only the base moves; afterwards it lies within `maxR` of the screen on both axes; a drifted base still inside that margin is kept as drifted |
| Particles.MoveNebula | frontend/src/components/Particles.jsx:226-232 | only the centre moves; afterwards it lies within the radius `r` of the screen; a drifted centre still inside that margin is kept as drifted |
| Particles.DriftHole | frontend/src/components/Particles.jsx:273-278 | only the centre moves; afterwards it lies within 50 of the screen; a drifted centre still inside that margin is kept as drifted |
| Particles.MoveHaze | frontend/src/components/Particles.jsx:203-211 | only the centre moves; a segment inside the band drifting along a non-negative direction leaves the band only past the right or bottom edge, is then moved back up and to the left, and without a jump moves along the band's axis |
| Particles.HoleInView | frontend/src/components/Particles.jsx:273-279 | after at least one drift step a black hole lies within 50 of the screen on both axes |
| Particles.Bounce | frontend/src/components/Particles.jsx:264-265 | after the two checks the radius is at most maxR and at least 16 when maxR >= 16; each crossed bound negates `rv`; an in-range particle is unchanged |
| Particles.Swirl | frontend/src/components/Particles.jsx:262-265 | the swirl update keeps the particle's galaxy index |
| Particles.Survivors | frontend/src/components/Particles.jsx:356-372 | at most as many stars as before; every survivor is not gone; every moved star that is not gone survives; every survivor is a moved star |
| Particles.SurvivorsAppend | frontend/src/components/Particles.jsx:356-372 | pruning distributes over concatenation, so survivors keep their order |
| Particles.SurvivorsAt | frontend/src/components/Particles.jsx:369-370 | the survivors of a suffix are its moved head (unless gone) followed by the survivors after it |
| Particles.ShootingStep | frontend/src/components/Particles.jsx:356-372 | one iteration of the backward splice loop extends the pruned suffix by one index |
| Particles.Universe.constructor | frontend/src/components/Particles.jsx:379-381 | mounting sizes the canvas, stamps `lastT` with the mount time and builds the universe with the galaxy and particle counts of the viewport and no shooting stars |
| Particles.Universe.ThemeHues | frontend/src/components/Particles.jsx:65-71 | three hues are drawn for the theme, with no `Math.random` draw when seeded |
| Particles.Universe.MakeGalaxy | frontend/src/components/Particles.jsx:55-83 | a galaxy's maximum radius lies in [0.22, 0.4) of the smaller screen side, its arm count is 2, 3 or 4 and it has three hues; seeded, `Math.random` is untouched |
| Particles.Universe.DrawGalaxyDrift | frontend/src/components/Particles.jsx:74-82 | the drift and wobble draws go through `rand`, so seeded they read nothing from `Math.random` |
| Particles.Universe.MakeBlackHole | frontend/src/components/Particles.jsx:88-97 | a black hole's horizon lies in [18, 34) and its influence is 16 times the horizon |
| Particles.Universe.MakeNebula | frontend/src/components/Particles.jsx:102-112 | a nebula's radius lies between 0.2 and 0.45 of the smaller screen side |
| Particles.Universe.MakeHaze | frontend/src/components/Particles.jsx:122-131 | segment `i` lies within 40 horizontally and 30 vertically of its point `i/19` of the band, drifts along the given direction at a speed in [0.25, 0.6], and is drawn through `rand` only |
| Particles.Universe.MakeGalaxies | frontend/src/components/Particles.jsx:55-84 | exactly `count` galaxies, each with 2-4 arms and three hues |
| Particles.Universe.MakeBlackHoles | frontend/src/components/Particles.jsx:88-98 | exactly `count` black holes, each with horizon in [18, 34) and influence 16 times the horizon |
| Particles.Universe.MakeNebulae | frontend/src/components/Particles.jsx:102-113 | exactly `count` nebulae |
| Particles.Universe.MakeHazes | frontend/src/components/Particles.jsx:116-132 | exactly `count` haze segments, each near its own point of the band and drifting along the given direction |
| Particles.Universe.InitUniverse | frontend/src/components/Particles.jsx:49-133 | `initUniverse` builds the galaxy count of the viewport, the black-hole count of the galaxy count, 3-6 nebulae and 20 haze segments drifting down and right along the band; `lastT` and the stars are untouched; seeded, it reads nothing from `Math.random`, so it is reproducible |
| Particles.Universe.MakeParticle | frontend/src/components/Particles.jsx:139-163 | a new particle has a valid galaxy index and a radius of at least 12; seeded, it still takes three `Math.random` draws |
| Particles.Universe.DrawParticleLook | frontend/src/components/Particles.jsx:151-157 | the look of a particle takes exactly one `Math.random` draw (brightness) when seeded |
| Particles.Universe.InitParticles | frontend/src/components/Particles.jsx:135-165 | `initParticles` creates the particle count of the viewport, all radii at least 12, valid galaxy indices, and takes three `Math.random` draws per particle even when seeded |
| Particles.Universe.Resize | frontend/src/components/Particles.jsx:377 | on resize the new size is stored and the galaxy and particle counts are those of the new viewport |
| Particles.Universe.MoveGalaxies | frontend/src/components/Particles.jsx:192-201 | every galaxy base is moved and wrapped, one by one, in place |
| Particles.Universe.MoveHazes | frontend/src/components/Particles.jsx:203-211 | every haze segment is moved as `MoveHaze` says, one by one, in place |
| Particles.Universe.MoveNebulae | frontend/src/components/Particles.jsx:225-234 | every nebula is moved and wrapped, one by one, in place |
| Particles.Universe.MoveParticles | frontend/src/components/Particles.jsx:257-296 | each particle swirls and bounces against its galaxy's maxR, and each black hole drifts once per particle |
| Particles.Universe.SpawnShootingStar | frontend/src/components/Particles.jsx:348-355 | a star is appended exactly when shooters are enabled, the generator's next draw is below `0.04 * dt60` and fewer than 4 exist; it starts above or beside the screen with life in [24, 48]; otherwise the stars are unchanged, and disabled shooters draw nothing |
| Particles.Universe.MoveShootingStars | frontend/src/components/Particles.jsx:356-372 | the backward splice loop leaves exactly the moved stars that are not gone, in their order |
| Particles.Universe.ShootingStars | frontend/src/components/Particles.jsx:348-372 | the star phase: one star born exactly when the spawn condition holds, starting above or beside the screen with life in [24, 48], then the survivors of the old stars and the new one, in order |
| Particles.Universe.Drift | frontend/src/components/Particles.jsx:190-296 | the motion phases: every galaxy, haze segment and nebula moved by its own rule, every particle swirled and bounced around its galaxy, every black hole drifted once per particle; gravity and respawn are left out (see "## Left out") |
| Particles.Universe.Advance | frontend/src/components/Particles.jsx:182-372 | an enabled frame: `dt60` from the old `lastT`, `lastT` stamped with `now`, the motion phases with that `dt60`, then the star phase on the frame's first generator draw; never more than 4 stars (gravity and respawn are left out, see "## Left out") |
| Particles.Universe.Step | frontend/src/components/Particles.jsx:175-375 | a disabled frame changes nothing; an enabled one is `Advance`: galaxies, haze, nebulae, particles, black holes and stars become the values of their per-frame rules with `dt60` measured from the old `lastT`, on the frames where no particle is within a black hole's influence (see "## Left out") |
| ProfileMapper.ToSummary | backend/src/main/java/com/example/portfolio/web/dto/ProfileMapper.java:15-32 | a null profile maps to null; otherwise the summary carries the profile's id, slug, name, role, bio, photo, four links and location |
| ProfileMapper.ToSummaryForgetsOnlyUser | backend/src/main/java/com/example/portfolio/web/dto/ProfileMapper.java:19-31 | two profiles have the same summary exactly when they differ at most in their user account |
| ProfileMapper.ToExperienceDto | backend/src/main/java/com/example/portfolio/web/dto/ProfileMapper.java:58-70 | the experience DTO copies every field of the experience |
| ProfileMapper.ToProjectDto | backend/src/main/java/com/example/portfolio/web/dto/ProfileMapper.java:72-84 | the project DTO copies every field and summarises the owner |
| ProfileMapper.ToProjectDtos | backend/src/main/java/com/example/portfolio/web/dto/ProfileMapper.java:50-52 | one DTO per project, in the same order |
| ProfileMapper.ToDetail | backend/src/main/java/com/example/portfolio/web/dto/ProfileMapper.java:54-56 | the detail holds the profile's summary and the given experience and project lists unchanged |
| ProfileMapper.CompareIsTotalPreorder | backend/src/main/java/com/example/portfolio/web/dto/ProfileMapper.java:40-41 | the experience comparator is antisymmetric, ties exactly on equal (order index, start date) keys and is transitive |
| ProfileMapper.CompareMeaning | backend/src/main/java/com/example/portfolio/web/dto/ProfileMapper.java:40-41 | present order indexes come before absent ones and smaller before larger; on equal order indexes a present start date comes first and later dates before earlier ones |
| ProfileMapper.BeforeIsTotalPreorder | backend/src/main/java/com/example/portfolio/web/dto/ProfileMapper.java:40-41 | "sorts no later than" is a total preorder |
| ProfileMapper.TiedIsSameKey | backend/src/main/java/com/example/portfolio/web/dto/ProfileMapper.java:40-41 | two experiences tie exactly when their order index and start date are equal |
| ProfileMapper.SortExperiences | backend/src/main/java/com/example/portfolio/web/dto/ProfileMapper.java:39-41 | sorting the experiences is a permutation of them |
| ProfileMapper.ToExperienceDtos | backend/src/main/java/com/example/portfolio/web/dto/ProfileMapper.java:38-44 | one DTO per experience, in sorted order |
| ProfileMapper.ToExperienceDtosOrdered | backend/src/main/java/com/example/portfolio/web/dto/ProfileMapper.java:38-44 | the listed experiences are a permutation of the input, sorted by the comparator, and experiences with equal keys keep their input order (the stream sort is stable) |
| Sorting.Insert | backend/src/main/java/com/example/portfolio/web/dto/ProfileMapper.java:40 | inserting adds exactly the one element: the result is the old multiset plus it |
| Sorting.Sort | backend/src/main/java/com/example/portfolio/web/dto/ProfileMapper.java:40 | the stable sort is a permutation of its input |
| Sorting.Ties | backend/src/main/java/com/example/portfolio/web/dto/ProfileMapper.java:40 | the elements tied with a given one, taken in order, are elements of the list |
| Sorting.TiesAppend | backend/src/main/java/com/example/portfolio/web/dto/ProfileMapper.java:40 | the tied elements of two lists are those of the first followed by those of the second |
| Sorting.InsertSorted | backend/src/main/java/com/example/portfolio/web/dto/ProfileMapper.java:40 | inserting into a sorted list keeps it sorted |
| Sorting.NoTies | backend/src/main/java/com/example/portfolio/web/dto/ProfileMapper.java:40 | a sorted list whose head is strictly after x holds nothing tied with x |
| Sorting.InsertStable | backend/src/main/java/com/example/portfolio/web/dto/ProfileMapper.java:40 | inserting places the new element after all elements tied with it |
| Sorting.SortSorted | backend/src/main/java/com/example/portfolio/web/dto/ProfileMapper.java:40 | the sort's result is sorted |
| Sorting.SortStable | backend/src/main/java/com/example/portfolio/web/dto/ProfileMapper.java:40 | the sort keeps the relative order of tied elements |
| Sorting.SortOfSorted | backend/src/main/java/com/example/portfolio/web/dto/ProfileMapper.java:40 | sorting an already sorted list changes nothing |
| Sorting.InsertAtEnd | backend/src/main/java/com/example/portfolio/web/dto/ProfileMapper.java:40 | an element no earlier than every element goes at the end |
| Text.DropStart | backend/src/main/java/com/example/portfolio/service/AuthService.java:186 | dropping leading trimmed characters leaves a suffix that does not start with one, after a prefix made only of them |
| Text.DropEnd | backend/src/main/java/com/example/portfolio/service/AuthService.java:186 | dropping trailing trimmed characters leaves a prefix that does not end with one, before a suffix made only of them |
| Text.TrimShape | backend/src/main/java/com/example/portfolio/service/AuthService.java:186 | the trimmed text is a contiguous slice of the input that neither starts nor ends with a trimmed character |
| Text.TrimIdempotent | backend/src/main/java/com/example/portfolio/service/AuthService.java:186 | trimming twice is trimming once |
| Text.TrimEmpty | backend/src/main/java/com/example/portfolio/service/AuthService.java:186-187 | the trimmed text is empty exactly when every character is trimmed |
| Text.TrimToNull | backend/src/main/java/com/example/portfolio/service/AuthService.java:182-188 | `trimToNull` is null exactly for null or all-blank input (characters up to U+0020); otherwise it is a non-empty text without blank ends |
| Text.TrimToNullIdempotent | backend/src/main/java/com/example/portfolio/service/AuthService.java:182-188 | applying `trimToNull` twice is applying it once |
| Text.Lower | backend/src/main/java/com/example/portfolio/service/AuthService.java:179 | lower-casing keeps the length and lower-cases each character |
| Text.LowerIdempotent | backend/src/main/java/com/example/portfolio/service/AuthService.java:179 | lower-casing twice is lower-casing once |
| Text.Split | frontend/src/pages/MemberPage.jsx:37 | `split` yields at least one piece and no piece holds the separator |
| Text.JoinSplit | frontend/src/pages/MemberPage.jsx:37 | joining the pieces of a split with the separator gives the text back |
| Text.SplitJoin | frontend/src/pages/MemberPage.jsx:37 | splitting pieces joined by a separator they do not hold gives the pieces back |
| Text.SplitHead | frontend/scripts/generate-sitemap.js:23 | the first piece of a split is the text before the first separator |
| Text.NatToString | frontend/src/components/PWAInstallPrompt.jsx:33 | a number is rendered as a non-empty run of digits without a leading zero |
| Text.ParseNatToString | frontend/src/components/PWAInstallPrompt.jsx:33-40 | parsing a rendered number gives the number back |
| Text.NatToStringInjective | frontend/src/components/PWAInstallPrompt.jsx:33 | different numbers render differently |
| Text.Utf16 | frontend/src/components/Particles.jsx:42 | the UTF-16 code units of a text are at least as many as its characters and each fits 16 bits |
| Text.Hash31 | frontend/src/components/Particles.jsx:42 | the 31-multiplier hash, taken modulo 2^32, fits 32 bits |
| Text.ToInt32 | frontend/src/components/Particles.jsx:42 | a bitwise-or with zero maps a 32-bit value onto the signed range, congruent modulo 2^32 |
| Text.StrLeTotal | backend/src/main/java/com/example/portfolio/repo/ProjectRepository.java:10 | string order is total and antisymmetric |
| Text.StrLeTrans | backend/src/main/java/com/example/portfolio/repo/ProjectRepository.java:10 | string order is transitive |
| Browser.Or | frontend/src/state/AuthContext.tsx:42-45 | the logical-or of two strings is `a` when truthy and `b` otherwise, and truthy exactly when either is |
| Browser.OrElse | frontend/src/state/AuthContext.tsx:42-45 | the logical-or of a string and a default yields `a` when truthy and the default otherwise |
| Browser.LocalStorage.GetItem | frontend/src/state/SettingsContext.jsx:8 | `getItem` returns the stored value of a key and null for a missing one |
| Browser.LocalStorage.SetItem | frontend/src/state/SettingsContext.jsx:18 | `setItem` stores the value under the key and changes nothing else |
| Browser.LocalStorage.RemoveItem | frontend/src/state/AuthContext.tsx:29 | `removeItem` removes the key and changes nothing else |
| ProfileService.StripMarks | backend/src/main/java/com/example/portfolio/service/ProfileService.java:107-108 | removing combining marks leaves no combining mark and keeps a mark-free text as it is |
| ProfileService.Collapse | backend/src/main/java/com/example/portfolio/service/ProfileService.java:110 | replacing each run of non-`[a-z0-9]` characters with one `-` gives a text of slug characters with no `--`, never longer, empty only for empty input, starting with `-` exactly when the input starts with a separator |
| ProfileService.DashedTail | backend/src/main/java/com/example/portfolio/service/ProfileService.java:110 | the tail of a dashed text is dashed, and a non-slug head of it is a `-` followed by a slug character |
| ProfileService.CollapseFixed | backend/src/main/java/com/example/portfolio/service/ProfileService.java:110 | collapsing a text that is already dashed changes nothing |
| ProfileService.TrimDashes | backend/src/main/java/com/example/portfolio/service/ProfileService.java:111 | stripping one leading and one trailing `-` never lengthens the text |
| ProfileService.TrimDashesShape | backend/src/main/java/com/example/portfolio/service/ProfileService.java:110-111 | after collapsing, stripping the end dashes leaves an empty text or a slug: `[a-z0-9-]`, no end dash, no `--` |
| ProfileService.SlugHasText | backend/src/main/java/com/example/portfolio/service/ProfileService.java:112 | a slug is never blank |
| ProfileService.SlugCore | backend/src/main/java/com/example/portfolio/service/ProfileService.java:107-111 | the mark-stripped, lower-cased, collapsed and end-trimmed text is empty or a slug |
| ProfileService.DashedBlank | backend/src/main/java/com/example/portfolio/service/ProfileService.java:112 | a dashed text is blank exactly when it is empty |
| ProfileService.LowerKeeps | backend/src/main/java/com/example/portfolio/service/ProfileService.java:109 | lower-casing a text without capitals changes nothing |
| ProfileService.CollapseSeparators | backend/src/main/java/com/example/portfolio/service/ProfileService.java:110 | a non-empty run of separators collapses to a single `-` |
| ProfileService.WhitespaceCore | backend/src/main/java/com/example/portfolio/service/ProfileService.java:104-112 | whitespace alone slugifies to the empty core |
| ProfileService.StripMarksWhitespace | backend/src/main/java/com/example/portfolio/service/ProfileService.java:107-108 | stripping marks from whitespace leaves whitespace |
| ProfileService.Slugify | backend/src/main/java/com/example/portfolio/service/ProfileService.java:103-113 | `slugify` always returns a slug (`[a-z0-9-]`, no end dash, no `--`): the core of a text that has one, `"profile"` for blank input or an empty core |
| ProfileService.DashedKept | backend/src/main/java/com/example/portfolio/service/ProfileService.java:107-109 | a dashed text has no marks and no capitals to remove |
| ProfileService.SlugCoreOfSlug | backend/src/main/java/com/example/portfolio/service/ProfileService.java:107-111 | the core of a slug is the slug itself |
| ProfileService.SlugifyFixesSlugs | backend/src/main/java/com/example/portfolio/service/ProfileService.java:103-113 | `slugify` leaves a slug unchanged |
| ProfileService.SlugifyIdempotent | backend/src/main/java/com/example/portfolio/service/ProfileService.java:89-95 | `slugify` is idempotent, so the double application in `generateSlug` and `ensureUniqueSlug` equals a single one |
| ProfileService.NormalizeSlug | backend/src/main/java/com/example/portfolio/service/ProfileService.java:82-87 | `normalizeSlug` is null exactly for null or blank input and otherwise the slug of the input |
| ProfileService.CandidateInjective | backend/src/main/java/com/example/portfolio/service/ProfileService.java:96-98 | different suffix counters give different candidates `base`, `base-1`, `base-2`, … |
| ProfileService.CandidatesStep | backend/src/main/java/com/example/portfolio/service/ProfileService.java:97-98 | the first n+1 candidates are the first n plus the n-th |
| ProfileService.CandidateFresh | backend/src/main/java/com/example/portfolio/service/ProfileService.java:97-98 | the n-th candidate is not among the first n |
| ProfileService.CandidatesCount | backend/src/main/java/com/example/portfolio/service/ProfileService.java:97-98 | the first n candidates are n distinct slugs, so a finite set of taken slugs cannot block the loop forever |
| ProfileService.EnsureUniqueSlug | backend/src/main/java/com/example/portfolio/service/ProfileService.java:93-101 | the result is never taken and is the first free candidate `base`, `base-1`, …; it is the slugified base itself when that is free |
| ProfileService.GenerateSlug | backend/src/main/java/com/example/portfolio/service/ProfileService.java:89-91 | the generated slug is the first free candidate of the slugified name and is never taken |
| ProfileService.ChooseSlug | backend/src/main/java/com/example/portfolio/service/ProfileService.java:27-28 | the normalized requested slug is used when present; otherwise the first candidate of the display name's slug (the slug, then `-1`, `-2`, ...) that is not taken |
| ProfileService.NewMember | backend/src/main/java/com/example/portfolio/service/ProfileService.java:25-30 | the new profile belongs to the user, has the slug, the display name and role `"Member"`, and nothing else set |
| ProfileService.CreateProfileForUser | backend/src/main/java/com/example/portfolio/service/ProfileService.java:24-32 | the profile gets the user, the display name, role `"Member"`, and the normalized requested slug when there is one, else the first candidate of the display name's slug that is not taken |
| ProfileService.Overwrite | backend/src/main/java/com/example/portfolio/service/ProfileService.java:54-77 | a null request field keeps the stored value; a present one is stored trimmed, or null when blank |
| ProfileService.UpdateOutcome | backend/src/main/java/com/example/portfolio/service/ProfileService.java:39-49 | the update fails with CONFLICT "Slug already taken" exactly when the desired slug is new for the profile and owned by a different profile; otherwise id and user are kept |
| ProfileService.UpdateFields | backend/src/main/java/com/example/portfolio/service/ProfileService.java:39-77 | a successful update keeps or sets the normalized slug, changes the name only to a trimmed display name with text, and overwrites each other field per its request field |
| ProfileService.UpdateIdempotent | backend/src/main/java/com/example/portfolio/service/ProfileService.java:34-80 | applying the same update twice equals applying it once |
| ProfileService.EmptyUpdateChangesNothing | backend/src/main/java/com/example/portfolio/service/ProfileService.java:51-77 | an update whose fields are all null leaves the profile unchanged |
| ProfileService.SetEditable | backend/src/main/java/com/example/portfolio/service/ProfileService.java:51-77 | the setters store the given name, role, bio, location, photo and links, and keep id, user and slug |
| ProfileService.ApplyFields | backend/src/main/java/com/example/portfolio/service/ProfileService.java:51-77 | the field section of `updateProfile` leaves the profile equal to the pure field update of its old state |
| ProfileService.UpdateProfile | backend/src/main/java/com/example/portfolio/service/ProfileService.java:34-80 | a null request changes nothing; a slug conflict fails before any field is modified; otherwise the profile becomes the computed update |
| AuthService.NormalizeEmail | backend/src/main/java/com/example/portfolio/service/AuthService.java:177-180 | `normalizeEmail` is null exactly when `trimToNull` is, and otherwise the lower-cased trimmed text |
| AuthService.LowerNoUpper | backend/src/main/java/com/example/portfolio/service/AuthService.java:179 | a lower-cased text has no capital letter |
| AuthService.LowerCharTrimmed | backend/src/main/java/com/example/portfolio/service/AuthService.java:178-179 | lower-casing a character does not change whether `trim` removes it |
| AuthService.DropStartLower | backend/src/main/java/com/example/portfolio/service/AuthService.java:178-179 | dropping leading blanks commutes with lower-casing |
| AuthService.DropEndLower | backend/src/main/java/com/example/portfolio/service/AuthService.java:178-179 | dropping trailing blanks commutes with lower-casing |
| AuthService.TrimToNullLower | backend/src/main/java/com/example/portfolio/service/AuthService.java:177-188 | trimming a lower-cased text is normalizing the original |
| AuthService.NormalizeEmailShape | backend/src/main/java/com/example/portfolio/service/AuthService.java:177-180 | a normalized email is non-empty, has no capital and does not start with a blank |
| AuthService.NormalizeEmailIdempotent | backend/src/main/java/com/example/portfolio/service/AuthService.java:177-180 | normalizing twice is normalizing once |
| AuthService.NormalizeEmailIgnoresCase | backend/src/main/java/com/example/portfolio/service/AuthService.java:177-180 | emails differing only in case normalize alike |
| AuthService.CheckRegistration | backend/src/main/java/com/example/portfolio/service/AuthService.java:54-75 | registration fails with 400 "Email and password are required" exactly when either lacks text, then with 409 "User already exists" exactly when the email is registered, then with 409 "Slug already taken" exactly when a requested slug is in use; otherwise it yields the normalized email, the password, the normalized slug and the trimmed display name or the email when it has none |
| AuthService.RegistrationEmailNormal | backend/src/main/java/com/example/portfolio/service/AuthService.java:55-75 | an accepted registration has a normalized lower-case email and a display name with text |
| AuthService.RegistrationSlugValid | backend/src/main/java/com/example/portfolio/service/AuthService.java:64-70 | an accepted requested slug is a slug, its own normalization, and not in use |
| AuthService.FindByEmail | backend/src/main/java/com/example/portfolio/service/AuthService.java:115-116 | the account found has the email; none is found only when no account has it |
| AuthService.FindByUserId | backend/src/main/java/com/example/portfolio/service/AuthService.java:128-156 | the first profile of the user, or none when the user has no profile |
| AuthService.WithoutProfileOf | backend/src/main/java/com/example/portfolio/service/AuthService.java:147 | deleting the user's profile removes exactly that one profile, if any |
| AuthService.WithoutAccount | backend/src/main/java/com/example/portfolio/service/AuthService.java:150 | deleting the account leaves exactly the other accounts |
| AuthService.ApplyProfileFields | backend/src/main/java/com/example/portfolio/service/AuthService.java:163-175 | a headline with text replaces the role, otherwise the role is kept; bio, photo, links and location are overwritten with their trimmed values or null |
| AuthService.NewProfile | backend/src/main/java/com/example/portfolio/service/AuthService.java:84-86 | the registered profile is created for the account with the checked slug, or else the first untaken candidate of the display name's slug, and the display name, then receives the request's fields |
| AuthService.Auth.BuildAuthResponse | backend/src/main/java/com/example/portfolio/service/AuthService.java:153-161 | the response carries the given profile's summary, else the stored one's, a new access token and its expiry, and a new refresh token stored after capping the user's active ones |
| AuthService.Auth.Register | backend/src/main/java/com/example/portfolio/service/AuthService.java:53-92 | a failed check changes nothing and returns its error; otherwise exactly one USER account with the encoded password and one profile are appended, the profile's slug being the checked one or else the first untaken candidate of the display name's slug, and a token pair is issued |
| AuthService.Auth.SaveRegistration | backend/src/main/java/com/example/portfolio/service/AuthService.java:78-86 | the new account and the new profile are appended to the stored ones, nothing else |
| AuthService.Auth.Login | backend/src/main/java/com/example/portfolio/service/AuthService.java:94-118 | missing email or password gives 400; an unauthenticated or unknown lower-cased name gives 401 "Invalid credentials"; otherwise the account's token pair and stored profile summary are returned; the token table changes only on success |
| AuthService.Auth.RefreshToken | backend/src/main/java/com/example/portfolio/service/AuthService.java:120-135 | an unknown, revoked or expired token gives 401 "Invalid refresh token" and changes nothing; a valid one is revoked and replaced, and a new access token and profile summary are returned |
| AuthService.Auth.Logout | backend/src/main/java/com/example/portfolio/service/AuthService.java:137-139 | logout revokes all of the user's refresh tokens |
| AuthService.Auth.DeleteAccount | backend/src/main/java/com/example/portfolio/service/AuthService.java:141-151 | the user's tokens are revoked, then the user's profile and then the account are deleted |
| AuthService.DeletedAccountIsGone | backend/src/main/java/com/example/portfolio/service/AuthService.java:141-151 | after deletion no account has the id, the user has no profile and no active refresh token |
| RefreshTokens.FindByTokenHash | backend/src/main/java/com/example/portfolio/repo/RefreshTokenRepository.java:18 | `findByTokenHash` finds the first row with the hash, or none when no row has it |
| RefreshTokens.ActiveTokens | backend/src/main/java/com/example/portfolio/repo/RefreshTokenRepository.java:42-43 | the active-token query lists exactly the user's unrevoked, unexpired rows, each once, in reverse table order |
| RefreshTokens.ActiveTokensNewestFirst | backend/src/main/java/com/example/portfolio/repo/RefreshTokenRepository.java:42 | in a table appended in creation order the active tokens come newest first (`ORDER BY createdAt DESC`) |
| RefreshTokens.ActiveTokensCount | backend/src/main/java/com/example/portfolio/repo/RefreshTokenRepository.java:20-43 | the active-token list has as many rows as the user has active tokens |
| RefreshTokens.CountActive | backend/src/main/java/com/example/portfolio/repo/RefreshTokenRepository.java:35 | `countByIsRevokedFalseAndExpiresAtAfter` counts at most every row |
| RefreshTokens.CountExpiredBefore | backend/src/main/java/com/example/portfolio/repo/RefreshTokenRepository.java:37 | `countByExpiresAtBefore` counts at most every row |
| RefreshTokens.CountRevoked | backend/src/main/java/com/example/portfolio/repo/RefreshTokenRepository.java:39 | `countByIsRevokedTrue` counts at most every row |
| RefreshTokens.CountsDisjoint | backend/src/main/java/com/example/portfolio/repo/RefreshTokenRepository.java:35-39 | active rows are neither revoked nor expired, so the active count plus either other count is at most the table size |
| RefreshTokens.RevokedAll | backend/src/main/java/com/example/portfolio/repo/RefreshTokenRepository.java:22-24 | `revokeAllByUserAccount` sets `isRevoked` on exactly the user's rows and leaves the others as they are |
| RefreshTokens.RevokedAllDeactivates | backend/src/main/java/com/example/portfolio/service/RefreshTokenService.java:100-103 | after revoking all of a user's tokens the user has none active and every other user keeps the same active ones |
| RefreshTokens.ActiveTokensEmpty | backend/src/main/java/com/example/portfolio/repo/RefreshTokenRepository.java:42-43 | with no matching row the active-token query is empty |
| RefreshTokens.ActiveTokensSameFilter | backend/src/main/java/com/example/portfolio/repo/RefreshTokenRepository.java:42-43 | two tables matching the filter at the same rows give the same active-token list |
| RefreshTokens.Unexpired | backend/src/main/java/com/example/portfolio/repo/RefreshTokenRepository.java:26-28 | `deleteByExpiresAtBefore` keeps exactly the rows not expired before `now`, and removes as many rows as `countByExpiresAtBefore` counts |
| RefreshTokens.NotStale | backend/src/main/java/com/example/portfolio/repo/RefreshTokenRepository.java:30-32 | `deleteRevokedTokensOlderThan` keeps exactly the rows that are not revoked-and-last-updated-before-the-cutoff, and removes only revoked ones |
| RefreshTokens.MarkRevoked | backend/src/main/java/com/example/portfolio/service/RefreshTokenService.java:112-113 | revoking a list of rows marks exactly those rows revoked (updated now) and leaves the others unchanged |
| RefreshTokens.MarkRevokedStep | backend/src/main/java/com/example/portfolio/service/RefreshTokenService.java:112 | revoking one more row of a strictly decreasing list extends the revocation by that row |
| RefreshTokens.CappedBound | backend/src/main/java/com/example/portfolio/service/RefreshTokenService.java:105-116 | after the cap the user has at most four active tokens, the kept ones are no older than the revoked ones, other users' rows are unchanged and creation order is kept |
| RefreshTokens.CappedFew | backend/src/main/java/com/example/portfolio/service/RefreshTokenService.java:109-115 | the cap leaves the user fewer than five active tokens on any table |
| RefreshTokens.ActiveCountAppend | backend/src/main/java/com/example/portfolio/service/RefreshTokenService.java:56-57 | saving one new token adds at most one active token |
| RefreshTokens.TokenService.RevokeAllByUserAccount | backend/src/main/java/com/example/portfolio/service/RefreshTokenService.java:100-103 | the table becomes the one with all of the user's tokens revoked |
| RefreshTokens.TokenService.DeleteByExpiresAtBefore | backend/src/main/java/com/example/portfolio/repo/RefreshTokenRepository.java:26-28 | the table keeps exactly its unexpired rows |
| RefreshTokens.TokenService.DeleteRevokedTokensOlderThan | backend/src/main/java/com/example/portfolio/repo/RefreshTokenRepository.java:30-32 | the table keeps exactly its rows that are not stale revoked ones |
| RefreshTokens.TokenService.CleanupUserTokens | backend/src/main/java/com/example/portfolio/service/RefreshTokenService.java:105-116 | with five or more active tokens, every one but the four newest is revoked; otherwise nothing changes |
| RefreshTokens.TokenService.CreateRefreshToken | backend/src/main/java/com/example/portfolio/service/RefreshTokenService.java:40-61 | the raw token is returned; the user's old tokens are capped and then the token's hash is appended, unrevoked, with expiry `now` plus the whole seconds of the configured lifetime; the user ends with at most five active tokens |
| RefreshTokens.TokenService.ValidateRefreshToken | backend/src/main/java/com/example/portfolio/service/RefreshTokenService.java:63-79 | the found row is returned exactly when a row has the token's hash and is neither revoked nor expired |
| RefreshTokens.TokenService.RotateRefreshToken | backend/src/main/java/com/example/portfolio/service/RefreshTokenService.java:81-88 | the old row is revoked, then a new token is created for the same user |
| RefreshTokens.TokenService.RevokeRefreshToken | backend/src/main/java/com/example/portfolio/service/RefreshTokenService.java:90-98 | the row with the token's hash, if any, is revoked; otherwise nothing changes |
| RefreshTokens.TokenService.CleanupExpiredTokens | backend/src/main/java/com/example/portfolio/service/RefreshTokenService.java:118-127 | expired rows are deleted, then revoked rows last updated more than 30 days ago |
| DataLoader.LoaderSlugify | backend/src/main/java/com/example/portfolio/bootstrap/DataLoader.java:298-304 | the loader's `slugify` is null for null input and otherwise null or a slug with text |
| DataLoader.LoaderSlugifyAgrees | backend/src/main/java/com/example/portfolio/bootstrap/DataLoader.java:298-304 | it agrees with the profile service's `slugify` where it is non-null; it is null for blank input, and for non-null input it is null exactly where the other version falls back to `"profile"` |
| DataLoader.AttemptInjective | backend/src/main/java/com/example/portfolio/bootstrap/DataLoader.java:75-79 | the backfill attempts `base`, `base-1`, `base-2`, … are pairwise different |
| DataLoader.AttemptsCount | backend/src/main/java/com/example/portfolio/bootstrap/DataLoader.java:76-79 | the first n attempts are n distinct slugs, so the loop ends |
| DataLoader.FirstFreeUnique | backend/src/main/java/com/example/portfolio/bootstrap/DataLoader.java:75-79 | the first free attempt is unique |
| DataLoader.NullNames | backend/src/main/java/com/example/portfolio/bootstrap/DataLoader.java:74-79 | a name that slugifies to nothing gets a null slug when null is not yet used, and `"null-1"` when it is and `"null-1"` is free |
| DataLoader.UsedAtMonotone | backend/src/main/java/com/example/portfolio/bootstrap/DataLoader.java:81 | the used set only grows as the loop advances |
| DataLoader.CountMissing | backend/src/main/java/com/example/portfolio/bootstrap/DataLoader.java:72-83 | at most one save per member |
| DataLoader.BackfillAvoidsKept | backend/src/main/java/com/example/portfolio/bootstrap/DataLoader.java:66-80 | a backfilled slug never equals a slug a member already had |
| DataLoader.BackfillDistinct | backend/src/main/java/com/example/portfolio/bootstrap/DataLoader.java:72-81 | two backfilled slugs are different |
| DataLoader.CollectKept | backend/src/main/java/com/example/portfolio/bootstrap/DataLoader.java:66-71 | the first loop collects exactly the slugs that have text |
| DataLoader.FreeSlug | backend/src/main/java/com/example/portfolio/bootstrap/DataLoader.java:74-79 | the inner loop finds the first attempt not in `used` |
| DataLoader.BackfillStep | backend/src/main/java/com/example/portfolio/bootstrap/DataLoader.java:73-82 | backfilling member k gives it the first free attempt and adds that to `used` |
| DataLoader.BackfillSkip | backend/src/main/java/com/example/portfolio/bootstrap/DataLoader.java:68-73 | a member with a slug is passed over and `used` is unchanged |
| DataLoader.Canonical | backend/src/main/java/com/example/portfolio/bootstrap/DataLoader.java:90-217 | reconciling a member sets bio, photo and the three links to the canonical values, and name, role and slug when the member has canonical ones |
| DataLoader.CanonicalIdempotent | backend/src/main/java/com/example/portfolio/bootstrap/DataLoader.java:90-217 | reconciling twice is reconciling once |
| DataLoader.FindBySlug | backend/src/main/java/com/example/portfolio/bootstrap/DataLoader.java:91 | `findBySlug` gives the first member with the slug, or none |
| DataLoader.FindBySlugIs | backend/src/main/java/com/example/portfolio/bootstrap/DataLoader.java:91 | the first member carrying the slug is the one found |
| DataLoader.FindBySlugNone | backend/src/main/java/com/example/portfolio/bootstrap/DataLoader.java:91 | no member carrying the slug means none is found |
| DataLoader.FindBySlugUntouched | backend/src/main/java/com/example/portfolio/bootstrap/DataLoader.java:91 | changing a member that neither had nor gets the slug does not change the lookup |
| DataLoader.FindBySlugSettles | backend/src/main/java/com/example/portfolio/bootstrap/DataLoader.java:148-149 | giving the found member the slug keeps it found |
| DataLoader.Lookup | backend/src/main/java/com/example/portfolio/bootstrap/DataLoader.java:124-127 | the member is looked up by the current slug first and then by the legacy slug, and none is found only when no member carries any of them |
| DataLoader.Reconciled | backend/src/main/java/com/example/portfolio/bootstrap/DataLoader.java:98-121 | reconciliation keeps the member count and reports a save exactly when something changed |
| DataLoader.UpdateExisting | backend/src/main/java/com/example/portfolio/bootstrap/DataLoader.java:90-218 | `updateExistingMembers` keeps the member count, saves at most three times, and saves nothing exactly when nothing changes |
| DataLoader.LookupUntouched | backend/src/main/java/com/example/portfolio/bootstrap/DataLoader.java:124-127 | changing a member unrelated to the slugs does not change the lookup |
| DataLoader.LookupSettles | backend/src/main/java/com/example/portfolio/bootstrap/DataLoader.java:148-149 | after the found member gets the current slug it is still the one found |
| DataLoader.SettledNoop | backend/src/main/java/com/example/portfolio/bootstrap/DataLoader.java:119-121 | a member already at its canonical values is not saved |
| DataLoader.SettledAfter | backend/src/main/java/com/example/portfolio/bootstrap/DataLoader.java:90-218 | after one reconciliation the looked-up member is canonical |
| DataLoader.SettledKept | backend/src/main/java/com/example/portfolio/bootstrap/DataLoader.java:90-218 | reconciling one known member does not unsettle another |
| DataLoader.AttemptHasText | backend/src/main/java/com/example/portfolio/bootstrap/DataLoader.java:74-78 | every slug attempt from a base with text has text; only a null base gives a null first attempt |
| DataLoader.BackfillFills | backend/src/main/java/com/example/portfolio/bootstrap/DataLoader.java:64-83 | after the backfill every slug has text, except that at most one member, the first whose name gives no slug, has a null slug |
| DataLoader.ReconciledKeepsSlugs | backend/src/main/java/com/example/portfolio/bootstrap/DataLoader.java:98-121 | reconciling a known member writes a slug with text into a member found by slug, so filled slugs stay filled |
| DataLoader.UpdateExistingKeepsSlugs | backend/src/main/java/com/example/portfolio/bootstrap/DataLoader.java:90-218 | `updateExistingMembers` keeps the slugs filled |
| DataLoader.UpdateExistingSettles | backend/src/main/java/com/example/portfolio/bootstrap/DataLoader.java:90-218 | after `updateExistingMembers` each of the three known members is absent or canonical |
| DataLoader.UpdateExistingTwice | backend/src/main/java/com/example/portfolio/bootstrap/DataLoader.java:90-218 | a second `updateExistingMembers` changes nothing and saves nothing |
| DataLoader.Upsert | backend/src/main/java/com/example/portfolio/bootstrap/DataLoader.java:286-293 | a seed written into a row sets its title, description, tags, links, image and owner and keeps its summary |
| DataLoader.FindByTitle | backend/src/main/java/com/example/portfolio/bootstrap/DataLoader.java:286 | `findByTitleIgnoreCase` finds the first row whose title matches ignoring case, or none |
| DataLoader.CountOwned | backend/src/main/java/com/example/portfolio/bootstrap/DataLoader.java:281-285 | at most one save per seed |
| DataLoader.LowerDiffers | backend/src/main/java/com/example/portfolio/bootstrap/DataLoader.java:286 | titles differing in a lower-cased letter are different ignoring case |
| DataLoader.SeedTitlesDistinct | backend/src/main/java/com/example/portfolio/bootstrap/DataLoader.java:224-279 | the six seed titles are pairwise different ignoring case |
| DataLoader.FindByTitleIs | backend/src/main/java/com/example/portfolio/bootstrap/DataLoader.java:286 | the first matching row is the one found |
| DataLoader.FindByTitleNone | backend/src/main/java/com/example/portfolio/bootstrap/DataLoader.java:286 | no matching row means none is found |
| DataLoader.FindByTitleUntouched | backend/src/main/java/com/example/portfolio/bootstrap/DataLoader.java:286-294 | writing a row that does not match the title does not change the lookup |
| DataLoader.FindByTitlePlaced | backend/src/main/java/com/example/portfolio/bootstrap/DataLoader.java:286-294 | the row written with the title is then the one found |
| DataLoader.UpsertInto | backend/src/main/java/com/example/portfolio/bootstrap/DataLoader.java:286-294 | the upsert adds at most one row, changes no row with another title, keeps summaries, and leaves the seed findable by its title |
| DataLoader.UpsertIntoUntouched | backend/src/main/java/com/example/portfolio/bootstrap/DataLoader.java:281-295 | a row whose title matches no seed is never changed by an upsert |
| DataLoader.SyncInto | backend/src/main/java/com/example/portfolio/bootstrap/DataLoader.java:219-296 | every seed with an owner is findable by title and written with that owner; at most one row is added per seed; rows matching no seed and all summaries are kept; one save per owned seed |
| DataLoader.UpsertIntoKeeps | backend/src/main/java/com/example/portfolio/bootstrap/DataLoader.java:281-295 | upserting seed i keeps the earlier seeds synced, because seed titles are distinct |
| DataLoader.Loader.InsertIfEmpty | backend/src/main/java/com/example/portfolio/bootstrap/DataLoader.java:27-62 | rows are inserted only when the member table is empty |
| DataLoader.Loader.SeedMembers | backend/src/main/java/com/example/portfolio/bootstrap/DataLoader.java:27-62 | the three seed members are inserted, three saves, only into an empty table |
| DataLoader.Loader.Backfill | backend/src/main/java/com/example/portfolio/bootstrap/DataLoader.java:64-84 | members with a slug are unchanged; every other gets the first free attempt from its slugified name; one save per backfilled member |
| DataLoader.Loader.Reconcile | backend/src/main/java/com/example/portfolio/bootstrap/DataLoader.java:91-121 | one known member is brought to its canonical values, saved once if changed |
| DataLoader.Loader.UpdateExistingMembers | backend/src/main/java/com/example/portfolio/bootstrap/DataLoader.java:90-218 | the members become the reconciled table, with one save per changed known member |
| DataLoader.Loader.SyncProjects | backend/src/main/java/com/example/portfolio/bootstrap/DataLoader.java:219-296 | the stored projects become the synced table; members are unchanged |
| DataLoader.Loader.Run | backend/src/main/java/com/example/portfolio/bootstrap/DataLoader.java:25-88 | an empty table ends with the three seed members, a non-empty one keeps its size; every member ends with a slug that has text, except that at most one, the first whose name gives no slug, keeps a null slug; each of the three known members is absent or canonical; every seed project with an owner is synced |
| ExperienceService.RequestFailure | backend/src/main/java/com/example/portfolio/service/ExperienceService.java:51-78 | a null payload gives "Experience payload is required", a title without text "Title is required", and an end date before the start date "End date cannot be before start date", checked in that order; any other request is accepted |
| ExperienceService.DateRangeAccepted | backend/src/main/java/com/example/portfolio/service/ExperienceService.java:58-78 | a request with a title and a missing date or equal dates passes validation |
| ExperienceService.Applied | backend/src/main/java/com/example/portfolio/service/ExperienceService.java:62-71 | applying a request keeps id and profile, stores the trimmed title, the trimmed-or-null company, location and description, the dates as given, `current` only for an explicit true, and the order index only when given |
| ExperienceService.AppliedIdempotent | backend/src/main/java/com/example/portfolio/service/ExperienceService.java:51-72 | applying the same request twice equals applying it once |
| ExperienceService.AppliedOverwrites | backend/src/main/java/com/example/portfolio/service/ExperienceService.java:62-71 | the result does not depend on the old fields other than id, profile and (when not given) the order index |
| ExperienceService.ApplyRequest | backend/src/main/java/com/example/portfolio/service/ExperienceService.java:51-72 | a rejected request leaves the experience untouched and reports its failure; an accepted one sets every field as `Applied` says |
| ExperienceService.Edited | backend/src/main/java/com/example/portfolio/service/ExperienceService.java:51-72 | the value-level edit: the failure of the request, and the unchanged or applied experience |
| ExperienceService.FindOwned | backend/src/main/java/com/example/portfolio/service/ExperienceService.java:39-40 | `findByIdAndProfileId` finds a row with both the id and the profile, and none only when no row has both |
| ExperienceService.OfProfile | backend/src/main/java/com/example/portfolio/service/ExperienceService.java:28 | the listed rows are exactly the profile's experiences |
| Entities.Without | backend/src/main/java/com/example/portfolio/service/ExperienceService.java:48 | a repository `delete` of one row: the table shrinks by one, loses exactly that row as a multiset and keeps every other row (also `ProjectService.deleteProject`) |
| ExperienceService.Experiences.List | backend/src/main/java/com/example/portfolio/service/ExperienceService.java:27-29 | the profile's experiences are returned through the mapper's ordering |
| ExperienceService.Experiences.Create | backend/src/main/java/com/example/portfolio/service/ExperienceService.java:31-36 | a rejected request saves nothing and returns its failure; otherwise the applied new experience of the profile is saved with the next id and returned |
| ExperienceService.Experiences.Update | backend/src/main/java/com/example/portfolio/service/ExperienceService.java:38-43 | an id not owned by the profile gives 404 "Experience not found" before any validation; a rejected request changes nothing; otherwise only that row is rewritten |
| ExperienceService.Experiences.Delete | backend/src/main/java/com/example/portfolio/service/ExperienceService.java:45-49 | an id not owned by the profile gives 404 and deletes nothing; otherwise exactly that row is deleted |
| ExperienceService.AppendKeepsDistinct | backend/src/main/java/com/example/portfolio/service/ExperienceService.java:35 | saving with a fresh id keeps ids distinct |
| ExperienceService.UpdateKeepsDistinct | backend/src/main/java/com/example/portfolio/service/ExperienceService.java:42 | rewriting a row under its own id keeps ids distinct |
| ExperienceService.WithoutKeepsDistinct | backend/src/main/java/com/example/portfolio/service/ExperienceService.java:48 | deleting a row keeps ids distinct |
| ExperienceService.OwnershipGuard | backend/src/main/java/com/example/portfolio/service/ExperienceService.java:39-42 | an update never touches a row of another profile or another id |
| ProjectService.RequestFailure | backend/src/main/java/com/example/portfolio/service/ProjectService.java:66-72 | a null payload gives "Project payload is required" and a title without text "Title is required"; every other request is accepted |
| ProjectService.AppliedFields | backend/src/main/java/com/example/portfolio/service/ProjectService.java:74-80 | applying a request keeps id, owner and creation time and stores the trimmed title and the trimmed-or-null summary, description, tags and three URLs |
| ProjectService.AppliedOverwrites | backend/src/main/java/com/example/portfolio/service/ProjectService.java:74-80 | the result does not depend on the old field values, so applying twice equals applying once |
| ProjectService.ApplyRequest | backend/src/main/java/com/example/portfolio/service/ProjectService.java:66-81 | a rejected request leaves the project untouched and reports its failure; an accepted one sets every field as `Applied` says |
| ProjectService.Edited | backend/src/main/java/com/example/portfolio/service/ProjectService.java:66-81 | the value-level edit: the failure of the request, and the unchanged or applied project |
| ProjectService.FindOwned | backend/src/main/java/com/example/portfolio/service/ProjectService.java:53-54 | `findByIdAndOwnerId` finds a row with the id and the owner, and none only when no row has both |
| ProjectService.Select | backend/src/main/java/com/example/portfolio/service/ProjectService.java:32-33 | a filtered query holds exactly the matching rows |
| ProjectService.TitleBeforeIsTotalPreorder | backend/src/main/java/com/example/portfolio/service/ProjectService.java:32 | ordering by title is a total preorder |
| ProjectService.ListingMeaning | backend/src/main/java/com/example/portfolio/service/ProjectService.java:30-35 | with a slug that has text the listing is exactly the owner's projects sorted by title; otherwise every project |
| ProjectService.ListOwnedMeaning | backend/src/main/java/com/example/portfolio/service/ProjectService.java:37-41 | the owned listing is exactly the owner's projects, newest first, and empty without an owner id |
| ProjectService.CacheKeyAsWrittenCollides | backend/src/main/java/com/example/portfolio/service/ProjectService.java:29 | the slug `ALL` and a missing slug share a cache key although their listings differ |
| ProjectService.CacheKeySound | backend/src/main/java/com/example/portfolio/service/ProjectService.java:29-35 | with the corrected key, equal keys always mean equal listings |
| ProjectService.AppendKeepsDistinct | backend/src/main/java/com/example/portfolio/service/ProjectService.java:48 | saving with a fresh id keeps ids distinct |
| ProjectService.UpdateKeepsDistinct | backend/src/main/java/com/example/portfolio/service/ProjectService.java:56 | rewriting a row under its own id keeps ids distinct |
| ProjectService.WithoutKeepsDistinct | backend/src/main/java/com/example/portfolio/service/ProjectService.java:63 | deleting a row keeps ids distinct |
| ProjectService.Projects.GetProjects | backend/src/main/java/com/example/portfolio/service/ProjectService.java:29-35 | runs the corrected `CacheKey` (see "## Findings"), not the `ALL` key as written: the cached or computed listing is always the current listing for the slug, and the cache stays coherent |
| ProjectService.Projects.ListOwned | backend/src/main/java/com/example/portfolio/service/ProjectService.java:37-41 | the owner's projects are returned newest first |
| ProjectService.Projects.CreateProject | backend/src/main/java/com/example/portfolio/service/ProjectService.java:43-49 | a rejected request saves nothing; otherwise the applied new project of the profile is saved with the next id and returned; the cache stays coherent with the table |
| ProjectService.Projects.UpdateProject | backend/src/main/java/com/example/portfolio/service/ProjectService.java:51-57 | a project not owned gives 404 "Project not found" before validation; a rejected request changes nothing; otherwise only that row is rewritten; the cache stays coherent with the table |
| ProjectService.Projects.DeleteProject | backend/src/main/java/com/example/portfolio/service/ProjectService.java:59-64 | a project not owned gives 404 and deletes nothing; otherwise exactly that row is deleted; the cache stays coherent with the table |
| RateLimitingFilter.LimitFor | backend/src/main/java/com/example/portfolio/config/RateLimitingFilter.java:35-69 | the limit is 10 exactly for auth endpoints (path contains `/auth/`, `/login` or `/register`) and 100 otherwise, including a null path |
| RateLimitingFilter.AuthPathLimit | backend/src/main/java/com/example/portfolio/config/RateLimitingFilter.java:35-69 | the login path gets the auth limit of 10 |
| RateLimitingFilter.OtherPathLimit | backend/src/main/java/com/example/portfolio/config/RateLimitingFilter.java:35-69 | a path without a slash, or no path, gets the general limit of 100 |
| RateLimitingFilter.AdmitMeaning | backend/src/main/java/com/example/portfolio/config/RateLimitingFilter.java:47-65 | a request is admitted exactly when the current window's count is below the limit; the window start is kept and the count grows by one only on admission |
| RateLimitingFilter.ResetIsStrict | backend/src/main/java/com/example/portfolio/config/RateLimitingFilter.java:54-56 | the window resets only when strictly more than 60000 ms have passed since its start, and then to a zero count starting now |
| RateLimitingFilter.AdmitBounded | backend/src/main/java/com/example/portfolio/config/RateLimitingFilter.java:58-62 | the count never exceeds a bound at least the limit |
| RateLimitingFilter.SharedCounter | backend/src/main/java/com/example/portfolio/config/RateLimitingFilter.java:35-50 | one counter per client serves both limits: once it reaches 10, auth requests are refused even if the count came from other paths |
| RateLimitingFilter.RunAllowsAtMost | backend/src/main/java/com/example/portfolio/config/RateLimitingFilter.java:47-65 | within one window at most `limit - count` further requests are admitted |
| RateLimitingFilter.DropTrailingEmpty | backend/src/main/java/com/example/portfolio/config/RateLimitingFilter.java:74 | `String.split` drops trailing empty pieces, leaving none exactly when all are empty |
| RateLimitingFilter.SplitAllEmpty | backend/src/main/java/com/example/portfolio/config/RateLimitingFilter.java:74 | every piece is empty exactly when the text consists of separators only |
| RateLimitingFilter.JavaSplitEmpty | backend/src/main/java/com/example/portfolio/config/RateLimitingFilter.java:74 | `split` returns an empty array exactly for a non-empty text of separators only |
| RateLimitingFilter.JavaSplitHead | backend/src/main/java/com/example/portfolio/config/RateLimitingFilter.java:74 | otherwise its first piece is the text before the first separator |
| RateLimitingFilter.ClientIpAsWrittenFails | backend/src/main/java/com/example/portfolio/config/RateLimitingFilter.java:73-74 | a header of only commas makes `split(",")[0]` fail |
| RateLimitingFilter.ClientIp | backend/src/main/java/com/example/portfolio/config/RateLimitingFilter.java:71-83 | the client is the trimmed first entry of a non-empty `X-Forwarded-For`, else a non-empty `X-Real-IP`, else the remote address |
| RateLimitingFilter.ClientIpAgrees | backend/src/main/java/com/example/portfolio/config/RateLimitingFilter.java:71-83 | where the code as written returns, it returns the same client; it fails exactly on a non-empty header of commas only |
| RateLimitingFilter.RequestWindow.constructor | backend/src/main/java/com/example/portfolio/config/RateLimitingFilter.java:89-92 | a new window starts at the given time with a zero count |
| RateLimitingFilter.RequestWindow.Reset | backend/src/main/java/com/example/portfolio/config/RateLimitingFilter.java:94-97 | reset moves the start and zeroes the count |
| RateLimitingFilter.RequestWindow.IncrementAndGet | backend/src/main/java/com/example/portfolio/config/RateLimitingFilter.java:62 | the count grows by one |
| RateLimitingFilter.Limiter.WindowOf | backend/src/main/java/com/example/portfolio/config/RateLimitingFilter.java:50 | `computeIfAbsent` returns the client's window, creating a zero window starting now only for a new client |
| RateLimitingFilter.Limiter.CountIn | backend/src/main/java/com/example/portfolio/config/RateLimitingFilter.java:52-64 | the window is reset and counted as `Admit` says; no other client's window changes |
| RateLimitingFilter.Limiter.IsRequestAllowed | backend/src/main/java/com/example/portfolio/config/RateLimitingFilter.java:47-65 | the answer and the client's new window are those of `Admit` on its old window; other clients are unchanged |
| RateLimitingFilter.Limiter.DoFilter | backend/src/main/java/com/example/portfolio/config/RateLimitingFilter.java:28-45 | runs the corrected `ClientIp` (see "## Findings"), which does not throw on a header of commas: an admitted request continues down the chain; a refused one gets 429 with the JSON error body and stops |
| SecurityConfig.SinglePattern | backend/src/main/java/com/example/portfolio/config/SecurityConfig.java:47-55 | a rule with one pattern matches exactly the paths that pattern matches |
| SecurityConfig.MismatchAt | backend/src/main/java/com/example/portfolio/config/SecurityConfig.java:47-55 | a path that differs from a pattern at a position before its `/**` suffix is not matched by it |
| SecurityConfig.FirstMatch | backend/src/main/java/com/example/portfolio/config/SecurityConfig.java:46-56 | the rule chosen is the first one in declaration order whose method and patterns match; none is chosen only when no rule matches |
| SecurityConfig.PermitIffSomePermitRule | backend/src/main/java/com/example/portfolio/config/SecurityConfig.java:46-56 | with all permitting rules declared before the authenticating ones, a request is permitted exactly when some permitting rule matches it |
| SecurityConfig.PermittedRequests | backend/src/main/java/com/example/portfolio/config/SecurityConfig.java:47-55 | a request is permitted exactly when one of the seven `permitAll` rules matches it; everything else needs authentication |
| SecurityConfig.BelowMatches | backend/src/main/java/com/example/portfolio/config/SecurityConfig.java:47-52 | a `prefix/**` pattern matches every path below the prefix |
| SecurityConfig.AnyPatternAt | backend/src/main/java/com/example/portfolio/config/SecurityConfig.java:51-52 | a rule with several patterns matches whenever one of them does |
| SecurityConfig.PermittedBelow | backend/src/main/java/com/example/portfolio/config/SecurityConfig.java:47-53 | any path below a permitting rule's `/**` pattern, with that rule's method, is permitted |
| SecurityConfig.AuthRoutesPermitted | backend/src/main/java/com/example/portfolio/config/SecurityConfig.java:47-48 | GET and POST under `/api/v1/auth/` are open |
| SecurityConfig.CurrentUserPermitted | backend/src/main/java/com/example/portfolio/config/SecurityConfig.java:48 | `GET /api/v1/auth/current-user` is open |
| SecurityConfig.ActuatorPermitted | backend/src/main/java/com/example/portfolio/config/SecurityConfig.java:50 | every method under `/actuator/` is open |
| SecurityConfig.DebugGetPermitted | backend/src/main/java/com/example/portfolio/config/SecurityConfig.java:49 | GET under `/api/v1/debug/` is open |
| SecurityConfig.TeamPermitted | backend/src/main/java/com/example/portfolio/config/SecurityConfig.java:51 | GET under both team prefixes is open |
| SecurityConfig.ProjectsPermitted | backend/src/main/java/com/example/portfolio/config/SecurityConfig.java:52 | GET under both projects prefixes is open |
| SecurityConfig.ContactPermitted | backend/src/main/java/com/example/portfolio/config/SecurityConfig.java:53 | `POST /api/v1/contact` is open |
| SecurityConfig.NonGetDebugMisses | backend/src/main/java/com/example/portfolio/config/SecurityConfig.java:47-53 | no permitting rule matches a non-GET debug request |
| SecurityConfig.NonGetDebugNeedsAuthentication | backend/src/main/java/com/example/portfolio/config/SecurityConfig.java:49-55 | only GET opens the debug routes; other methods need authentication |
| SecurityConfig.UnversionedContactMisses | backend/src/main/java/com/example/portfolio/config/SecurityConfig.java:47-53 | no permitting rule matches `POST /api/contact` |
| SecurityConfig.UnversionedContactNeedsAuthentication | backend/src/main/java/com/example/portfolio/config/SecurityConfig.java:53-55 | the contact form is open only under `/api/v1/`; the unversioned path needs authentication |
| JwtAuthenticationFilter.BearerToken | backend/src/main/java/com/example/portfolio/security/JwtAuthenticationFilter.java:32-38 | a token is taken exactly when the header has text and starts with `"Bearer "`, and it is the header with that prefix removed |
| JwtAuthenticationFilter.BearerExamples | backend/src/main/java/com/example/portfolio/security/JwtAuthenticationFilter.java:33-38 | the bare word `Bearer` and a missing header carry no token; `Bearer abc` carries `abc` |
| JwtAuthenticationFilter.AuthenticateMeaning | backend/src/main/java/com/example/portfolio/security/JwtAuthenticationFilter.java:39-55 | an authentication is installed exactly when there is a bearer token, none exists yet, extraction returns an email with text, a user with that email exists and the token is valid for them; it names the email and the authority `ROLE_` plus the user's role. In every other case, including an exception, the context is unchanged |
| JwtAuthenticationFilter.ExistingKept | backend/src/main/java/com/example/portfolio/security/JwtAuthenticationFilter.java:41 | an authentication already in the context is never replaced |
| JwtAuthenticationFilter.SecurityContext.constructor | backend/src/main/java/com/example/portfolio/security/JwtAuthenticationFilter.java:41 | a fresh context holds no authentication |
| JwtAuthenticationFilter.DoFilterInternal | backend/src/main/java/com/example/portfolio/security/JwtAuthenticationFilter.java:28-58 | the chain is called exactly once on every path, and the context afterwards holds what `Authenticate` gives for the old one |
| GlobalExceptionHandler.CreateErrorResponse | backend/src/main/java/com/example/portfolio/exception/GlobalExceptionHandler.java:98-109 | the response status and the body's `status` agree, `error` is that status's reason phrase, the message and timestamp are carried over, and the path never grows when `uri=` is removed |
| GlobalExceptionHandler.ReplaceShrinks | backend/src/main/java/com/example/portfolio/exception/GlobalExceptionHandler.java:106 | `replace("uri=", "")` never lengthens the description |
| GlobalExceptionHandler.HandleTable | backend/src/main/java/com/example/portfolio/exception/GlobalExceptionHandler.java:26-96 | each handled exception maps to its status (401 for expired token, bad signature, bad credentials and unknown user; 400 for malformed and unsupported tokens) and to its message |
| GlobalExceptionHandler.BodyAgrees | backend/src/main/java/com/example/portfolio/exception/GlobalExceptionHandler.java:98-109 | every response's body repeats its status, with the reason phrase "Bad Request" or "Unauthorized" |
| GlobalExceptionHandler.CredentialFailuresIndistinguishable | backend/src/main/java/com/example/portfolio/exception/GlobalExceptionHandler.java:74-96 | a wrong password and an unknown user give identical responses |
| GlobalExceptionHandler.JwtFailuresDistinct | backend/src/main/java/com/example/portfolio/exception/GlobalExceptionHandler.java:26-96 | any two different exceptions, other than the two credential failures, give different messages |
| GlobalExceptionHandler.PathStripped | backend/src/main/java/com/example/portfolio/exception/GlobalExceptionHandler.java:106 | a description `uri=` followed by a path without `uri=` yields exactly that path |
| ErrorTestController.TestErrors | backend/src/main/java/com/example/portfolio/controller/ErrorTestController.java:20-36 | each of the five type names, in any letter case, throws its own exception (never the unsupported-token one); any other type answers 200 with "No error type specified" |
| ErrorTestController.TestErrorsIgnoresCase | backend/src/main/java/com/example/portfolio/controller/ErrorTestController.java:22 | the outcome depends only on the lower-cased type |
| ErrorTestController.RespondStatus | backend/src/main/java/com/example/portfolio/controller/ErrorTestController.java:20-36 | with the exception handler behind it, `expired`, `signature`, `credentials` and `usernotfound` answer 401, `malformed` answers 400 and everything else 200 |
| ErrorTestController.GetStatus | backend/src/main/java/com/example/portfolio/controller/ErrorTestController.java:38-45 | the status endpoint answers 200 with status `ok`, the service name and the given timestamp |
| ProjectsController.Entries | backend/src/main/java/com/example/portfolio/web/ProjectsController.java:53-54 | one signature entry per project, in listing order |
| ProjectsController.HexDigit | backend/src/main/java/com/example/portfolio/web/ProjectsController.java:61 | each nibble becomes a lower-case hexadecimal digit |
| ProjectsController.Hex | backend/src/main/java/com/example/portfolio/web/ProjectsController.java:59-62 | `%02x` per byte: two lower-case hex digits for each byte of the digest |
| ProjectsController.EtagShape | backend/src/main/java/com/example/portfolio/web/ProjectsController.java:56-63 | with a 20-byte SHA-1 digest the ETag is 40 lower-case hex digits between double quotes |
| ProjectsController.EtagFollowsEntries | backend/src/main/java/com/example/portfolio/web/ProjectsController.java:52-67 | listings with the same entries in the same order have the same signature and the same ETag |
| ProjectsController.EtagIgnoresOtherFields | backend/src/main/java/com/example/portfolio/web/ProjectsController.java:54 | only id, title and owner slug feed the ETag: listings that agree on those get the same ETag |
| ProjectsController.EntryDefaults | backend/src/main/java/com/example/portfolio/web/ProjectsController.java:54 | a missing id is written as `0` and a missing title as `null`, so they collide with those values |
| ProjectsController.Conditional | backend/src/main/java/com/example/portfolio/web/ProjectsController.java:39-49 | 304 exactly when `If-None-Match` equals the ETag; both answers carry the ETag and a 60-second max age; only the 200 carries the projects and is public |
| ProjectsController.RevalidationHits | backend/src/main/java/com/example/portfolio/web/ProjectsController.java:36-44 | a client holding the ETag of a listing with the same signature is answered 304 |
| ProjectsController.All | backend/src/main/java/com/example/portfolio/web/ProjectsController.java:31-50 | the endpoint answers for the project listing of the member slug, without changing the stored projects |
| AuthContextTsx.StoredAuthMeaning | frontend/src/state/AuthContext.tsx:22-37 | a stored session is restored exactly when the entry is non-empty, parses, has a truthy token, refresh token and expiry, and the expiry is in the future; it is restored as parsed, and an expired entry never is |
| AuthContextTsx.LoadStoredAuth | frontend/src/state/AuthContext.tsx:22-37 | the restored session is `StoredAuth` of the stored entry; the `auth` key is removed exactly when the entry has expired, and nothing else in storage changes |
| AuthContextTsx.NormaliseAuthPayload | frontend/src/state/AuthContext.tsx:39-47 | no payload gives no session; otherwise the token is `token`, else `accessToken`, else empty, the refresh token and expiry default to empty and 0, and the profile is kept |
| AuthContextTsx.NormaliseIdempotent | frontend/src/state/AuthContext.tsx:39-47 | normalising a normalised session changes nothing |
| AuthContextTsx.AuthStateOf | frontend/src/state/AuthContext.tsx:292-298 | the user is authenticated exactly when a session with a truthy token exists, the exposed token is present exactly then, and the user is the session's profile; loading is always false |
| AuthContextTsx.BackendResponseSignsIn | frontend/src/state/AuthContext.tsx:39-47 | a login response from the backend, which names its token `accessToken`, yields its access and refresh tokens and signs the user in exactly when the token is non-empty |
| AuthContextTsx.SavedSessionReloads | frontend/src/state/AuthContext.tsx:22-37 | a normalised session written to storage is read back on the next load exactly when its token, refresh token and expiry are set and it has not expired |
| AuthContextTsx.ErrorMessage | frontend/src/state/AuthContext.tsx:60 | the error message is the body's `message`, else its `error`, else the status text, else "Request failed", and is never empty |
| AuthContextTsx.ParseJsonResponse | frontend/src/state/AuthContext.tsx:49-67 | an error is raised exactly for a non-OK response; it carries that message, the status and the parsed body; an OK response yields the parsed body, or nothing for an empty or unparsable text |
| AuthContextTsx.EmptyErrorBody | frontend/src/state/AuthContext.tsx:49-67 | a failing response with no body reports its status text, or "Request failed" without one |
| AuthContextTsx.RefreshDelay | frontend/src/state/AuthContext.tsx:112-148 | a refresh is scheduled exactly when token, refresh token and expiry are set and more than 5 minutes remain; it fires 5 minutes before expiry, after a positive delay |
| AuthContextTsx.AuthorizedRequest | frontend/src/state/AuthContext.tsx:262-274 | without a token the call fails with "No authentication token"; otherwise it goes to the base plus `/v1` plus the path, keeps the method and body, adds `Authorization: Bearer` and JSON `Content-Type`, and any header the caller gives wins |
| AuthContextTsx.AuthorizedFetch | frontend/src/state/AuthContext.tsx:262-281 | an OK response is returned; a non-OK one fails with "Request failed with status" and the status |
| AuthContextTsx.WithProfile | frontend/src/state/AuthContext.tsx:283-290 | the profile is replaced only when a session exists |
| AuthContextTsx.WithProfileKeepsSession | frontend/src/state/AuthContext.tsx:283-298 | replacing the profile changes nothing else in the session and never signs the user in or out |
| AuthContextTsx.AuthProvider.Persist | frontend/src/state/AuthContext.tsx:77-83 | storage holds the stringified session, or no `auth` key without one; other keys are untouched |
| AuthContextTsx.AuthProvider.constructor | frontend/src/state/AuthContext.tsx:74-83 | the provider starts from the stored session, with no error, and storage in step |
| AuthContextTsx.AuthProvider.ApplyAuth | frontend/src/state/AuthContext.tsx:91-100 | the session becomes the normalised payload, the error is cleared, and storage follows |
| AuthContextTsx.AuthProvider.ClearAuth | frontend/src/state/AuthContext.tsx:102-105 | the session and error are cleared and the `auth` key is removed |
| AuthContextTsx.AuthProvider.CheckExpiry | frontend/src/state/AuthContext.tsx:85-89 | a session whose truthy expiry has passed is dropped; any other session is kept |
| AuthContextTsx.AuthProvider.AutoRefresh | frontend/src/state/AuthContext.tsx:119-142 | a network failure changes nothing; a refused refresh signs the user out; an accepted one applies the new tokens |
| AuthContextTsx.AuthProvider.SetProfileSummary | frontend/src/state/AuthContext.tsx:283-290 | the session becomes `WithProfile` of the old one and storage follows; without a session storage is untouched |
| AuthContextJsx.AcceptsMoreThanTsx | frontend/src/state/AuthContext.jsx:6-21 | this loader restores exactly the unexpired entries with a truthy token and expiry; it accepts every session the TypeScript loader does, and the same one, and it agrees with that loader whenever the refresh token is set |
| AuthContextJsx.NoRefreshTokenAccepted | frontend/src/state/AuthContext.jsx:11 | an entry without a refresh token is restored here and refused by the TypeScript loader |
| AuthContextJsx.LoadStoredAuth | frontend/src/state/AuthContext.jsx:6-21 | the restored session is `StoredAuth` of the stored entry; the `auth` key is removed exactly when the entry has expired |
| AuthContextJsx.NormaliseAsWritten | frontend/src/state/AuthContext.jsx:23-30 | as written, normalising keeps only `token`, `expiresAt` and the profile |
| AuthContextJsx.BackendLoginLostAsWritten | frontend/src/state/AuthContext.jsx:23-30 | as written, a backend login response, whose token is `accessToken`, leaves a session with no token, so the user is not signed in |
| AuthContextJsx.NormaliseAuthPayload | frontend/src/state/AuthContext.jsx:23-30 | corrected: the token is `token`, else `accessToken`; the expiry and profile are kept |
| AuthContextJsx.BackendLoginKept | frontend/src/state/AuthContext.jsx:23-30 | corrected, a backend login signs the user in exactly when its access token is non-empty; for payloads with a token it agrees with the code as written |
| AuthContextJsx.AuthorizedRequest | frontend/src/state/AuthContext.jsx:102-113 | without a token the call fails with "Authentication required" and status 401; otherwise it goes to the base plus the path, `Authorization` is always the bearer token, and JSON `Content-Type` is added only for a body that has none |
| AuthContextJsx.AuthorizedFetch | frontend/src/state/AuthContext.jsx:102-114 | the response is whatever the server answers, whatever its status; only a missing token fails |
| AuthContextJsx.ProfileRefresh | frontend/src/state/AuthContext.jsx:116-128 | without a token it fails "Not authenticated" and changes nothing; a 401 signs the user out with "Session expired"; otherwise the parsed body's profile replaces the session's profile, and a failed parse leaves the session as it was |
| AuthContextJsx.ProfileRefreshKeepsToken | frontend/src/state/AuthContext.jsx:126 | refreshing the profile keeps the rest of the session and the user signed in |
| AuthContextJsx.AuthProvider.Persist | frontend/src/state/AuthContext.jsx:55-61 | storage holds the stringified session, or no `auth` key without one |
| AuthContextJsx.AuthProvider.constructor | frontend/src/state/AuthContext.jsx:53-61 | the provider starts from the stored session, with storage in step |
| AuthContextJsx.AuthProvider.ApplyAuth | frontend/src/state/AuthContext.jsx:69-71 | runs the corrected `NormaliseAuthPayload` (see "## Findings"), which also reads `accessToken`: the session becomes the normalised payload and storage follows |
| AuthContextJsx.AuthProvider.Logout | frontend/src/state/AuthContext.jsx:98-100 | logging out clears the session and the `auth` key, with no network call |
| AuthContextJsx.AuthProvider.RefreshProfile | frontend/src/state/AuthContext.jsx:116-128 | the session and result are those `ProfileRefresh` gives for the response to `/profile/me` |
| AuthContextJsx.AuthProvider.SetProfileSummary | frontend/src/state/AuthContext.jsx:130-132 | the session becomes `WithProfile` of the old one, and a missing session stays missing |
| ApiErrorBoundary.RetryDelay | frontend/src/components/ApiErrorBoundary.jsx:37 | the back-off starts at one second and doubles with each retry already made |
| ApiErrorBoundary.RetryDelays | frontend/src/components/ApiErrorBoundary.jsx:30-38 | the three waits the boundary can make are 1000, 2000 and 4000 ms |
| ApiErrorBoundary.View | frontend/src/components/ApiErrorBoundary.jsx:59-105 | the fallback shows exactly while there is an error and no retry is running; the retry button is offered exactly while fewer than three retries were made, labelled "Try Again" at first and then with the retries left; the message says whether to try again or that the maximum is reached |
| ApiErrorBoundary.RetryLabels | frontend/src/components/ApiErrorBoundary.jsx:62-73 | the labels are "Try Again", "Try Again (2 left)", "Try Again (1 left)", and no button after three retries |
| ApiErrorBoundary.Boundary.constructor | frontend/src/components/ApiErrorBoundary.jsx:4-13 | the boundary starts with no error, not retrying, and no retries made |
| ApiErrorBoundary.Boundary.Catch | frontend/src/components/ApiErrorBoundary.jsx:15-27 | a caught error is recorded with its info; the retry state is unchanged |
| ApiErrorBoundary.Boundary.BeginRetry | frontend/src/components/ApiErrorBoundary.jsx:29-38 | with three retries made nothing happens; otherwise the boundary starts retrying and waits `RetryDelay` of the count so far; the count never passes three |
| ApiErrorBoundary.Boundary.FinishRetry | frontend/src/components/ApiErrorBoundary.jsx:40-46 | a finished retry clears the error and counts one more retry, at most three in all |
| ApiErrorBoundary.Boundary.Reset | frontend/src/components/ApiErrorBoundary.jsx:49-57 | reset clears the error and the retry count |
| PerformanceMonitor.Round | frontend/src/utils/performanceMonitor.ts:220-224 | `Math.round`: the nearest integer, halves rounded up |
| PerformanceMonitor.RoundMonotone | frontend/src/utils/performanceMonitor.ts:220-224 | rounding keeps order |
| PerformanceMonitor.Last | frontend/src/utils/performanceMonitor.ts:183-186 | the newest `n` entries of a history are a suffix of it, of length at most `n` |
| PerformanceMonitor.FullWindowAppend | frontend/src/utils/performanceMonitor.ts:177-187 | once the buffer is full, recording drops the oldest entry and appends the new one |
| PerformanceMonitor.SumBounds | frontend/src/utils/performanceMonitor.ts:204-216 | the sum of a field lies between the count times its lowest and highest values |
| PerformanceMonitor.MeanBounds | frontend/src/utils/performanceMonitor.ts:218-224 | the rounded mean of a field lies between the rounded lowest and highest values |
| PerformanceMonitor.Average | frontend/src/utils/performanceMonitor.ts:193-226 | no metrics give all zeros; otherwise each field is the rounded mean of that field over the buffer |
| PerformanceMonitor.AverageHitRateBounded | frontend/src/utils/performanceMonitor.ts:193-226 | when every recorded hit rate is a percentage, so is the average |
| PerformanceMonitor.Hits | frontend/src/utils/performanceMonitor.ts:166-172 | never more cache hits than resources |
| PerformanceMonitor.RoundedPercent | frontend/src/utils/performanceMonitor.ts:174 | a rounded share of a whole is a percentage from 0 to 100, and 100 when the part is the whole |
| PerformanceMonitor.HitRateBounds | frontend/src/utils/performanceMonitor.ts:158-175 | the cache hit rate is a percentage, 100 when every resource took under 10 ms |
| PerformanceMonitor.HitsAppend | frontend/src/utils/performanceMonitor.ts:166-172 | one more resource adds a hit exactly when it took under 10 ms |
| PerformanceMonitor.GetCacheHitRate | frontend/src/utils/performanceMonitor.ts:158-175 | without resource timing the rate is 0; otherwise it is `HitRate` of the durations, always from 0 to 100 |
| PerformanceMonitor.Observer.constructor | frontend/src/utils/performanceMonitor.ts:63-69 | a new observer is connected |
| PerformanceMonitor.Observer.Disconnect | frontend/src/utils/performanceMonitor.ts:255 | a disconnected observer is no longer connected |
| PerformanceMonitor.Monitor.constructor | frontend/src/utils/performanceMonitor.ts:3-17 | a new monitor holds no metrics and no observers |
| PerformanceMonitor.Monitor.Observe | frontend/src/utils/performanceMonitor.ts:70-113 | registering an observer under a name replaces any earlier one with that name and leaves the metrics alone |
| PerformanceMonitor.Monitor.RecordMetric | frontend/src/utils/performanceMonitor.ts:177-187 | the metric is stamped with the time and appended; with 100 already held the oldest is dropped, so at most 100 are kept and the newest is last |
| PerformanceMonitor.Monitor.GetMetrics | frontend/src/utils/performanceMonitor.ts:189-191 | the copy returned is the newest 100 of everything ever recorded, oldest first |
| PerformanceMonitor.Monitor.GetAverageMetrics | frontend/src/utils/performanceMonitor.ts:193-226 | the averages are `Average` of the buffer |
| PerformanceMonitor.Monitor.Cleanup | frontend/src/utils/performanceMonitor.ts:253-258 | every registered observer is disconnected and the registry is emptied; metrics are kept |
| PerformanceDashboard.GradeOf | frontend/src/components/PerformanceDashboard.tsx:44-58 | the cache hit rate is good from 80 and fair from 60, higher being better; every other metric is good up to its first threshold and fair up to its second, lower being better |
| PerformanceDashboard.GradeMonotone | frontend/src/components/PerformanceDashboard.tsx:44-58 | a larger value never grades better, except for the cache hit rate, where it never grades worse |
| PerformanceDashboard.GradeColor | frontend/src/components/PerformanceDashboard.tsx:60-67 | good, fair and poor have their own colours; any other name gets the grey fallback |
| PerformanceDashboard.GradeColorsDistinct | frontend/src/components/PerformanceDashboard.tsx:60-67 | the three grades get three different colours, none of them the fallback |
| PerformanceDashboard.AllGoodMeaning | frontend/src/components/PerformanceDashboard.tsx:166-170 | the `every` over the property values holds exactly when all five metrics grade good |
| PerformanceDashboard.When | frontend/src/components/PerformanceDashboard.tsx:154-171 | a tip is listed exactly when its condition holds |
| PerformanceDashboard.Tips | frontend/src/components/PerformanceDashboard.tsx:154-171 | each warning appears exactly when its threshold is crossed (load over 3000, memory over 100, hit rate under 60, bundle over 500), and the "all good" tip exactly when every metric grades good |
| PerformanceDashboard.AllGoodAlone | frontend/src/components/PerformanceDashboard.tsx:154-171 | when every metric is good, "all good" is the only tip; the all-zero starting averages never show it |
| PerformanceDashboard.Reverse | frontend/src/components/PerformanceDashboard.tsx:180 | `reverse` puts the last element first |
| PerformanceDashboard.History | frontend/src/components/PerformanceDashboard.tsx:180 | the history shows the newest five metrics at most, newest first |
| Pwa.IndexOf | frontend/src/utils/pwa.ts:306 | `indexOf`: the first position holding the callback |
| Pwa.RemoveFirst | frontend/src/utils/pwa.ts:303-311 | only the first occurrence of the callback is spliced out, and a callback not registered leaves the list as it is |
| Pwa.DuplicateSurvivesOff | frontend/src/utils/pwa.ts:296-311 | a callback registered twice is still registered after one `off` |
| Pwa.RequestNotificationPermission | frontend/src/utils/pwa.ts:158-174 | without notification support the answer is `denied`; a granted or denied permission is returned as it is; the user is asked only while the permission is undecided |
| Pwa.AskedOnlyWhenUndecided | frontend/src/utils/pwa.ts:164-173 | the user's answer matters only when notifications are supported and the permission is undecided |
| Pwa.CacheUrlsMessage | frontend/src/utils/pwa.ts:265-275 | a `CACHE_URLS` message carrying the URLs is posted exactly when an active worker is registered |
| Pwa.PaddingLength | frontend/src/utils/pwa.ts:322 | at most three `=` are added, bringing the length to a multiple of four |
| Pwa.Repeat | frontend/src/utils/pwa.ts:322 | `'='.repeat(n)` is `n` copies of `=` |
| Pwa.MapStandard | frontend/src/utils/pwa.ts:323-325 | each character of the key goes through the `-`→`+`, `_`→`/` mapping |
| Pwa.StandardBase64 | frontend/src/utils/pwa.ts:322-325 | the URL-safe key becomes standard Base64 (RFC 4648 section 5 to section 4): a multiple of four long, at most three longer, no `-` or `_` left, the key's characters mapped and then `=` padding |
| Pwa.AlignedKeyUnpadded | frontend/src/utils/pwa.ts:322 | a key already a multiple of four long gets no padding |
| Pwa.UrlBase64ToUint8Array | frontend/src/utils/pwa.ts:321-334 | the conversion succeeds exactly when `atob` accepts the standard form; the fresh array is as long as the decoded text and holds each character's code, truncated to a byte as a `Uint8Array` does |
| Pwa.BinaryStringCopied | frontend/src/utils/pwa.ts:330-332 | a character of the decoded binary string (below 256) is stored as its own code |
| Pwa.Manager.constructor | frontend/src/utils/pwa.ts:4-20 | a new manager has no callbacks and no deferred prompt |
| Pwa.Manager.On | frontend/src/utils/pwa.ts:296-301 | the callback is appended to the event's list, which is created when absent; duplicates are kept |
| Pwa.Manager.Off | frontend/src/utils/pwa.ts:303-311 | an unknown event changes nothing; otherwise the event's list loses the first occurrence of the callback |
| Pwa.Manager.Emit | frontend/src/utils/pwa.ts:313-318 | each registered callback is called once, in registration order, with `{type, message, data}` |
| Pwa.Manager.BeforeInstallPrompt | frontend/src/utils/pwa.ts:98-103 | the prompt is held, so installation becomes possible, and every `installAvailable` callback is called |
| Pwa.Manager.AppInstalled | frontend/src/utils/pwa.ts:105-109 | the prompt is dropped, so installation is no longer offered, and every `appInstalled` callback is called |
| Pwa.Manager.PromptInstall | frontend/src/utils/pwa.ts:121-138 | without a held prompt the answer is false; a prompt that fails answers false and keeps the prompt; otherwise the answer is whether the user accepted, and the prompt is used up |
| ServiceWorker.Route | frontend/public/sw.js:69-95 | non-GET requests are left alone; same-origin GETs go to the API strategy when the URL contains `/api/`, else to the image strategy for images and the static strategy otherwise; cross-origin GETs go to the external strategy |
| ServiceWorker.ApiBeforeImage | frontend/public/sw.js:81-86 | an image under `/api/` is routed as an API request, since that test comes first |
| ServiceWorker.CacheNamed | frontend/public/sw.js:104 | the entries of the cache with that name, if one exists |
| ServiceWorker.OpenIn | frontend/public/sw.js:104 | `caches.open` makes the named cache exist, empty if it was new, and touches no other cache |
| ServiceWorker.PutIn | frontend/public/sw.js:104-105 | `put` stores the response under the URL in the named cache and touches no other cache |
| ServiceWorker.MatchIn | frontend/public/sw.js:113 | `caches.match` answers from the first cache, in creation order, that holds the URL, and nothing when none does |
| ServiceWorker.PutThenMatch | frontend/public/sw.js:105-113 | a response just stored is found by a later match |
| ServiceWorker.OwnCachesDeletedAsWritten | frontend/public/sw.js:17-54 | as written, the activation test picks all four caches the worker fills, though not the bare version name |
| ServiceWorker.StaleAgrees | frontend/public/sw.js:54 | corrected, a cache is deleted when it carries the application's prefix and is none of its current caches; this differs from the written test exactly on those four |
| ServiceWorker.Survivors | frontend/public/sw.js:49-60 | activation keeps exactly the caches the test does not pick, in their order |
| ServiceWorker.SurvivorsAppend | frontend/public/sw.js:52-58 | one more cache is kept exactly when the test does not pick it |
| ServiceWorker.StaticCacheLostAsWritten | frontend/public/sw.js:25-66 | as written, the static cache filled at install, and the API cache, are gone after activation whatever caches there were |
| ServiceWorker.PushOptions | frontend/public/sw.js:284-321 | without data, or with data `json()` rejects, the defaults are used; otherwise the body, URL and tag are the payload's where truthy; the three are never empty |
| ServiceWorker.FirstContaining | frontend/public/sw.js:341-345 | the first open window whose URL contains the target, or none |
| ServiceWorker.NotificationClick | frontend/public/sw.js:329-354 | only the `view` action or a click on the body is handled; the first window containing the target URL (`/` by default) is focused; otherwise a new window opens at it when the browser can |
| ServiceWorker.ClickOpensPushedUrl | frontend/public/sw.js:312-349 | with no window open, clicking a pushed notification opens the URL the push named, or `/` |
| ServiceWorker.StoredStep | frontend/public/sw.js:32 | `addAll` stores each URL's response, keeping those stored before |
| ServiceWorker.Worker.constructor | frontend/public/sw.js:1-22 | a new worker has no caches |
| ServiceWorker.Worker.Install | frontend/public/sw.js:25-42 | the static cache is opened; when every static URL fetches with an OK response all are stored, otherwise nothing is stored; no other cache changes |
| ServiceWorker.Worker.AllFetched | frontend/public/sw.js:32 | `addAll` succeeds exactly when every URL fetches with an OK response |
| ServiceWorker.Worker.StoreAll | frontend/public/sw.js:32 | every URL ends up in the static cache with its fetched response; no other cache changes |
| ServiceWorker.Worker.Activate | frontend/public/sw.js:45-66 | corrected activation keeps exactly the caches that are not stale, every current cache among them |
| ServiceWorker.Worker.HandleApi | frontend/public/sw.js:98-135 | network first: a network answer is returned, and stored in the API cache when OK, so a later match finds it; offline, the cached answer or the JSON 503 is returned and the caches are unchanged |
| ServiceWorker.Worker.HandleImage | frontend/public/sw.js:138-168 | cache first: a cached image is returned as it is and the caches are unchanged; otherwise the network answer, stored in the image cache when OK so that a later match finds it; offline, the SVG placeholder |
| ServiceWorker.Worker.HandleStatic | frontend/public/sw.js:171-213 | a cached answer is returned at once; an OK network answer is stored in the dynamic cache either way, so that a later match finds it; without a cached answer the network answer is returned; offline, navigation gets the cached offline page or "Offline" 503, other requests "Resource unavailable offline" 503 |
| ServiceWorker.Worker.HandleExternal | frontend/public/sw.js:216-234 | the network answer, else a cached one, else "External resource unavailable" 503; nothing is cached |
| ServiceWorker.Worker.HandleFetch | frontend/public/sw.js:69-95 | exactly the GET requests are answered, and the others leave the caches alone; for each strategy `Route` picks, the answer and the new caches are those that strategy's handler gives (API, image, static), and the external strategy answers without changing the caches |
| ServiceWorker.ApiKeptForOffline | frontend/public/sw.js:98-135 | an API answer stored while online makes the next offline request for the same URL answered from the caches, not with the 503 JSON, with exactly the stored answer when no cache held the URL before; that request changes no cache |
| ServiceWorker.ImageKeptForOffline | frontend/public/sw.js:138-168 | once an image has been stored, every later request for it is answered from the cache, online or offline, and changes no cache |
| ServiceWorker.OfflinePageSurvivesActivate | frontend/public/sw.js:45-66 | after the corrected activation the installed offline page can still be matched |
| MemberPage.MemberOutcome | frontend/src/pages/MemberPage.jsx:17-24 | a member is shown exactly when the response is OK and its body parses; a non-OK response gives "Not found", and a network or parse failure gives its message |
| MemberPage.ProjectsOutcome | frontend/src/pages/MemberPage.jsx:26-32 | the projects are the parsed body of an OK response, and an empty list in every other case |
| MemberPage.PageOf | frontend/src/pages/MemberPage.jsx:76-79 | the page shows "Loading..." while loading, the member only once loading is over with no error and a member, and "Not found" otherwise |
| MemberPage.Featured | frontend/src/pages/MemberPage.jsx:34 | the featured projects are the first three, or all of them when fewer |
| MemberPage.Distinct | frontend/src/pages/MemberPage.jsx:36-38 | the `Set` holds every tag seen, each once |
| MemberPage.Position | frontend/src/pages/MemberPage.jsx:36-38 | the first position at which a tag is seen |
| MemberPage.PositionInPrefix | frontend/src/pages/MemberPage.jsx:36-38 | a tag seen early keeps its first position as more are seen |
| MemberPage.DistinctFirstSeen | frontend/src/pages/MemberPage.jsx:36-38 | `Array.from(set)` lists tags in the order they were first seen |
| MemberPage.DistinctAppend | frontend/src/pages/MemberPage.jsx:37 | adding a tag already present changes nothing, and a new tag goes last |
| MemberPage.AllChipsAppend | frontend/src/pages/MemberPage.jsx:37 | the tags of one more project follow those of the earlier ones |
| MemberPage.AllChipsPrefix | frontend/src/pages/MemberPage.jsx:37 | the `forEach` over projects adds each project's chips in turn |
| MemberPage.AddChips | frontend/src/pages/MemberPage.jsx:37 | adding a project's chips to the set gives the distinct tags of everything seen so far |
| MemberPage.Tags | frontend/src/pages/MemberPage.jsx:35-39 | the tag list is `TagsOf` the projects |
| MemberPage.TagsMeaning | frontend/src/pages/MemberPage.jsx:35-39 | at most ten tags, none repeated, each a trimmed non-empty piece of some project's comma-separated tags; when there are fewer than ten distinct tags all of them are listed |
| MemberPage.ChipOfSomeProject | frontend/src/pages/MemberPage.jsx:37 | every tag comes from some project |
| MemberPage.VariantFor | frontend/src/pages/MemberPage.jsx:41-79 | corrected definition (see "## Findings"), looking at the own keys of `variants` only: the three known members get their own theme; any other slug gets the default variant |
| MemberPage.CfgBaseAsWritten | frontend/src/pages/MemberPage.jsx:79 | as written, with the prototype lookup: a slug names an inherited `Object.prototype` member exactly when it is one of its keys, and otherwise the page gets the corrected variant |
| MemberPage.ConstructorSlugAsWritten | frontend/src/pages/MemberPage.jsx:79-84 | the all-lower-case slug `constructor` reaches the inherited member as written, where the corrected lookup gives the default variant |
| MemberPage.ParticlesFor | frontend/src/pages/MemberPage.jsx:83-85 | the background is drawn exactly when effects are on, seeded by the slug, with the variant's speed and density scaled by the user's settings and its theme and black-hole factor |
| MemberPage.DefaultBackground | frontend/src/pages/MemberPage.jsx:79-85 | corrected definition (see "## Findings"): an unknown member, `constructor` included, gets the default theme at unit speed, density and black-hole factor, with shooting stars |
| MemberPage.Timeline | frontend/src/pages/MemberPage.jsx:47-68 | the three known members have two entries each; no member, or any other member, has none |
| MemberPage.TimelineCurrentFirst | frontend/src/pages/MemberPage.jsx:50-64 | each known member's first entry is the current one at the innovation lab |
| MemberPage.TimelineMatchesVariant | frontend/src/pages/MemberPage.jsx:41-68 | a member has a timeline exactly when they have their own background variant |
| App.TrimAll | frontend/src/App.jsx:100 | `map(t => t.trim())` trims every part and keeps their order |
| App.NonEmpty | frontend/src/App.jsx:100 | `filter(Boolean)` keeps exactly the non-empty parts |
| App.Chips | frontend/src/App.jsx:98-104 | every chip is non-empty, comma-free and trimmed; a missing or empty `tags` gives none |
| App.PieceClean | frontend/src/App.jsx:100 | a comma-free part that is not blank trims to a clean chip |
| App.PiecesClean | frontend/src/App.jsx:100 | the parts of a split, trimmed and filtered, are all clean chips |
| App.EmptyTags | frontend/src/App.jsx:98-100 | an empty string gives no chips |
| App.TrimAllClean | frontend/src/App.jsx:100 | trimming leaves clean chips as they are |
| App.NonEmptyClean | frontend/src/App.jsx:100 | filtering leaves non-empty parts as they are |
| App.ChipsOfJoined | frontend/src/App.jsx:98-104 | clean chips joined with commas split back into the same chips: the chip row round-trips |
| App.ChipsStable | frontend/src/App.jsx:98-104 | re-joining a project's chips and splitting again gives the same chips |
| App.ChipRow | frontend/src/App.jsx:98-104 | a chip row is rendered exactly when `tags` is truthy, holding its chips |
| App.AfterImageError | frontend/src/App.jsx:65-69 | an image already marked as fallen back is left alone; otherwise it is marked and switched to the placeholder |
| App.ImageErrorOnce | frontend/src/App.jsx:65-69 | a second error changes nothing, so the placeholder is swapped in at most once |
| App.ImageElement.constructor | frontend/src/App.jsx:86-94 | a card with an image URL starts on it, unmarked; one without starts on the placeholder, already marked |
| App.ImageElement.HandleImageError | frontend/src/App.jsx:65-69 | the element changes as `AfterImageError` says |
| App.PlaceholderNeverReplaced | frontend/src/App.jsx:88-93 | a card built on the placeholder never reacts to an image error |
| App.ViewOf | frontend/src/App.jsx:145-150 | the button is disabled and reads "Sending..." exactly while submitting; the thank-you or error notice shows exactly after success or failure |
| App.Contact.constructor | frontend/src/App.jsx:118-119 | the form starts empty and idle |
| App.Contact.Edit | frontend/src/App.jsx:142-144 | editing replaces the form and leaves the status |
| App.Contact.BeginSubmit | frontend/src/App.jsx:121-129 | submitting posts the form as JSON to `/contact` and sets the status to submitting |
| App.Contact.FinishSubmit | frontend/src/App.jsx:130-135 | an OK response means success and an empty form; a failing response or a network error means failure, with the form kept |
| App.Background | frontend/src/App.jsx:160-164 | the background is drawn exactly when effects are on, with the user's speed and density |
| Dashboard.TrimOrNull | frontend/src/pages/Dashboard.jsx:190-199 | the trimmed text or null: nothing exactly when the trimmed text is empty, otherwise the trimmed text |
| Dashboard.TrimOrNullOfShown | frontend/src/pages/Dashboard.jsx:189-199 | a field shown in the form and submitted unchanged comes back as it was, when it was already trimmed and non-empty or missing |
| Dashboard.ToProfileForm | frontend/src/pages/Dashboard.jsx:25-36 | the form shows each profile field, or empty text where it is missing; name and role fill the display name and headline |
| Dashboard.ProfilePayload | frontend/src/pages/Dashboard.jsx:178-200 | a blank display name is refused with "Display name is required."; otherwise the display name is trimmed and every other field is trimmed, with blanks sent as null |
| Dashboard.ShownDetailsKept | frontend/src/pages/Dashboard.jsx:189-194 | clean slug, headline, bio and location survive the form round trip |
| Dashboard.ShownLinksKept | frontend/src/pages/Dashboard.jsx:195-199 | clean photo and link URLs survive the form round trip |
| Dashboard.UnchangedProfileResubmits | frontend/src/pages/Dashboard.jsx:178-200 | submitting the form as loaded, for a clean profile, sends back exactly that profile |
| Dashboard.RegisterPayload | frontend/src/pages/Dashboard.jsx:142-166 | registration is refused, with its message, exactly when the trimmed email, the password or the trimmed display name is empty; otherwise the trimmed email and display name, the password as typed, the trimmed slug or null, and null for the rest are sent |
| Dashboard.OrNull | frontend/src/pages/Dashboard.jsx:244-245 | a date text or null: nothing exactly for the empty text |
| Dashboard.ExperienceBody | frontend/src/pages/Dashboard.jsx:232-249 | a blank title is refused with "Title is required."; otherwise the title is trimmed, the text fields are trimmed or null, a current position has no end date, and an empty order index is sent as null and any other as `Number` of it |
| Dashboard.ProjectBody | frontend/src/pages/Dashboard.jsx:296-312 | a blank title is refused with "Title is required."; otherwise the title is trimmed and every other field is trimmed or null |
| Dashboard.TrimOrNullStable | frontend/src/pages/Dashboard.jsx:190-199 | trimming-or-nulling a value already trimmed-or-nulled changes nothing |
| Dashboard.ReadJson | frontend/src/pages/Dashboard.jsx:38-55 | an error is raised exactly for a non-OK response, with the body's message, else its error, else the status text, else "Request failed", and the status; an OK response yields the parsed body |
| Dashboard.ReadJsonAgreesWithAuthContext | frontend/src/pages/Dashboard.jsx:38-55 | the page's reader behaves as the authentication context's, except that its error carries no payload |
| Dashboard.FormatRange | frontend/src/pages/Dashboard.jsx:345-350 | with no dates the range reads "Current" or nothing; otherwise the start, or "Unknown", then a dash, then "Present" for a current position or the end, or "Unknown" |
| Dashboard.FormatRangeBlank | frontend/src/pages/Dashboard.jsx:345-350 | the range is blank exactly when there are no dates and the position is not current |
| Dashboard.FormatRangeStartsWithStart | frontend/src/pages/Dashboard.jsx:345-350 | a known start date leads the range |
| Dashboard.Section.constructor | frontend/src/pages/Dashboard.jsx:73-79 | an editor section starts on its empty form, editing nothing, with no error |
| Dashboard.Section.Reset | frontend/src/pages/Dashboard.jsx:86-96 | reset returns to the empty form, editing nothing, and clears the error |
| Dashboard.Section.StartEdit | frontend/src/pages/Dashboard.jsx:217-230 | starting an edit loads the item's values, remembers its id and clears the error |
| Dashboard.Section.Submit | frontend/src/pages/Dashboard.jsx:232-264 | a refused form keeps the form and shows the message; a successful save resets the section; a failed save keeps the form and shows the server's message |
| Dashboard.Section.Delete | frontend/src/pages/Dashboard.jsx:266-280 | a successful delete resets the section when the deleted item was being edited, and otherwise only clears the error; a failure keeps everything and shows the message |
| DateUtils.PadStart2 | frontend/src/utils/dateUtils.js:35 | `padStart(2, '0')` gives at least two characters, ending with the original |
| DateUtils.PaddedMonth | frontend/src/utils/dateUtils.js:35 | every month number becomes two digits that read back as that month |
| DateUtils.MonthYearReadsBack | frontend/src/utils/dateUtils.js:35-37 | `MM/YYYY` has two month digits, a slash and the year's digits, and reads back as the one-based month and the year |
| DateUtils.FormatDateForDisplay | frontend/src/utils/dateUtils.js:30-41 | no date gives empty text; an unparsable date gives `NaN/NaN`, since `new Date` does not throw; otherwise the month and year of the date at local midnight; a date never shows as empty |
| DateUtils.FormatRange | frontend/src/utils/dateUtils.js:8-23 | without a start the period is "Unknown period"; a current position reads start "- Present"; without an end only the start is shown; otherwise start " - " end; never empty |
| DateUtils.CurrentIgnoresEnd | frontend/src/utils/dateUtils.js:13-15 | for a current position the end date makes no difference |
| DateUtils.NoStartHidesRest | frontend/src/utils/dateUtils.js:9 | without a start date neither the end nor `current` makes a difference |
| CursorSun.InitiallyEnabled | frontend/src/components/CursorSun.jsx:29-32 | the cursor starts on exactly when reduced motion is not preferred and the stored flag is not `1` |
| CursorSun.OffFlag | frontend/src/components/CursorSun.jsx:116-124 | the flag written for a state reads back, on the next load, as that same state |
| CursorSun.Push | frontend/src/components/CursorSun.jsx:82-83 | the newest point goes last and the trail never grows past 80 points |
| CursorSun.TrailIsRecent | frontend/src/components/CursorSun.jsx:69-83 | after any run of frames the trail is exactly the newest 80 eased positions, or all of them when fewer |
| CursorSun.Opacity | frontend/src/components/CursorSun.jsx:75 | the sun is fully opaque exactly while visible and transparent otherwise |
| CursorSun.Cursor.constructor | frontend/src/components/CursorSun.jsx:12-57 | on mount the cursor is enabled as `InitiallyEnabled` says, visible, with an empty trail, and the forcing style is present exactly when enabled |
| CursorSun.Cursor.ApplyEnabled | frontend/src/components/CursorSun.jsx:34-54 | the forcing style is present exactly when the cursor is enabled, and never inserted twice |
| CursorSun.Cursor.OnKey | frontend/src/components/CursorSun.jsx:113-119 | `c` in either case toggles the cursor and stores the new flag; any other key, or none, changes nothing |
| CursorSun.Cursor.OnExternal | frontend/src/components/CursorSun.jsx:121-127 | a boolean `sunCursorSet` detail sets the state and stores its flag; any other detail is ignored |
| CursorSun.Cursor.OnMouse | frontend/src/components/CursorSun.jsx:59-65 | the sun is visible while the mouse moves or is inside the window and hidden once it leaves |
| CursorSun.Cursor.OnClick | frontend/src/components/CursorSun.jsx:66 | a click pulses the scale to 1.25 |
| CursorSun.Cursor.Step | frontend/src/components/CursorSun.jsx:70-104 | each frame sets the opacity from visibility, appends the eased position to the trail and decays the pulse |
| SettingsContext.InitialEffectsOn | frontend/src/state/SettingsContext.jsx:8 | effects start on unless the stored flag is exactly `0` |
| SettingsContext.InitialScale | frontend/src/state/SettingsContext.jsx:9-10 | a missing or empty stored speed or density reads as `Number('1')`, any other as `Number` of it |
| SettingsContext.InitialReduceMotion | frontend/src/state/SettingsContext.jsx:11-15 | a stored flag decides reduced motion (on exactly for `1`); without one the system preference does |
| SettingsContext.Flag | frontend/src/state/SettingsContext.jsx:18-32 | flags are stored as `1` or `0` |
| SettingsContext.FlagRoundTrip | frontend/src/state/SettingsContext.jsx:8-32 | a stored flag reads back, on the next load, as the state that wrote it |
| SettingsContext.Settings.PersistEffects | frontend/src/state/SettingsContext.jsx:17-21 | the effects flag is stored and broadcast as a `sunCursorSet` detail |
| SettingsContext.Settings.constructor | frontend/src/state/SettingsContext.jsx:5-35 | after mount the settings are those read from storage, except that reduced motion turns effects off; storage holds every setting, and the last broadcast is the effects state |
| SettingsContext.Settings.MountEffects | frontend/src/state/SettingsContext.jsx:17-35 | the mount effects settle: effects stay on only without reduced motion, and the last broadcast agrees |
| SettingsContext.Settings.SetEffectsOn | frontend/src/state/SettingsContext.jsx:17-35 | effects follow the switch unless reduced motion forces them off; a change is broadcast, followed by `false` when it was forced back off; no change broadcasts nothing |
| SettingsContext.Settings.SetReduceMotion | frontend/src/state/SettingsContext.jsx:31-35 | turning reduced motion on switches effects off and broadcasts that once; turning it off leaves effects as they were |
| SettingsContext.Settings.SetBgSpeed | frontend/src/state/SettingsContext.jsx:23-25 | the new speed is kept and stored as `String` of it |
| SettingsContext.Settings.SetBgDensity | frontend/src/state/SettingsContext.jsx:27-29 | the new density is kept and stored as `String` of it |
| OptimizedImage.Extension | frontend/src/components/OptimizedImage.tsx:31 | `split('.').pop()`: the text after the last dot, which holds no dot |
| OptimizedImage.SrcSetWidths | frontend/src/components/OptimizedImage.tsx:29-38 | the srcset lists the five widths 320, 640, 1024, 1280 and 1920, in that order, joined by ", " |
| OptimizedImage.ReplaceAfterStem | frontend/src/components/OptimizedImage.tsx:32 | `replace` with a pattern starting with a dot skips a dot-free stem and removes the pattern right after it |
| OptimizedImage.SimpleName | frontend/src/components/OptimizedImage.tsx:31-32 | for `name.ext` with no other dot the extension is `ext` and the base name is `name` |
| OptimizedImage.FirstOccurrenceOnly | frontend/src/components/OptimizedImage.tsx:32 | when the extension also occurs earlier, `replace` removes that first occurrence, not the real extension: `a.jpgx.jpg` has base name `ax.jpg` |
| OptimizedImage.NoDot | frontend/src/components/OptimizedImage.tsx:31-32 | a source without a dot is its own extension and its own base name |
| OptimizedImage.SimpleSrcSet | frontend/src/components/OptimizedImage.tsx:29-38 | for `name.ext` the five candidates are `name_Ww.fmt Ww`, with WebP when the browser supports it and `ext` otherwise |
| OptimizedImage.Render | frontend/src/components/OptimizedImage.tsx:106-150 | after an error only the "Failed to load image" box is rendered; otherwise the image shows the current source, offers srcset and sizes exactly while that is the real source, loads eagerly whenever it has priority, and is fully opaque exactly once loaded |
| OptimizedImage.Image.constructor | frontend/src/components/OptimizedImage.tsx:86-88 | the image starts on the placeholder, not loaded and without error |
| OptimizedImage.Image.Effect | frontend/src/components/OptimizedImage.tsx:100-104 | the real source is swapped in exactly when the image has priority, is in view or loads eagerly, and has neither loaded nor failed; otherwise the source is kept |
| OptimizedImage.Image.HandleLoad | frontend/src/components/OptimizedImage.tsx:90-93 | a load marks the image loaded |
| OptimizedImage.Image.HandleError | frontend/src/components/OptimizedImage.tsx:95-98 | after an error the source is never swapped again |
| SeoSchemas.LookupAt | frontend/src/utils/seoSchemas.ts:2-20 | a property is read from an object literal by its key; the first property with that key is the one found |
| SeoSchemas.Str | frontend/src/utils/seoSchemas.ts:5-8 | a member field is a JSON string exactly when the member has it; a missing one stays `undefined` |
| SeoSchemas.PersonFields | frontend/src/utils/seoSchemas.ts:2-20 | a member's Person has type Person, the member's name, role as job title and email, the page URL under `/member/` built from the slug ("undefined" without one), LinkedIn then GitHub in `sameAs`, and works for "Team Portfolio" |
| SeoSchemas.PersonIdentity | frontend/src/utils/seoSchemas.ts:4-6 | the Person's type, name and job title come from the member |
| SeoSchemas.PersonEmail | frontend/src/utils/seoSchemas.ts:14 | the Person's email is the member's contact email |
| SeoSchemas.PersonLinks | frontend/src/utils/seoSchemas.ts:9-19 | the Person's URL is the slug under the member path, `sameAs` is LinkedIn then GitHub, missing ones included, and the employer is the team |
| SeoSchemas.PersonUrlInjective | frontend/src/utils/seoSchemas.ts:9 | two members with different slugs get different Person URLs |
| SeoSchemas.OrganizationHolds | frontend/src/utils/seoSchemas.ts:22-38 | an Organization carries its type, name, URL and the contact email inside its contact point |
| SeoSchemas.OrganizationFields | frontend/src/utils/seoSchemas.ts:22-38 | the team Organization is named "Team Portfolio" at https://example.com, with contact email hello@example.com |
| SeoSchemas.WebsiteHolds | frontend/src/utils/seoSchemas.ts:40-51 | a WebSite carries its type, name, URL and a search action |
| SeoSchemas.WebsiteFields | frontend/src/utils/seoSchemas.ts:40-51 | the site is a WebSite named "Team Portfolio" at https://example.com offering a SearchAction |
| SeoSchemas.ListItemFields | frontend/src/utils/seoSchemas.ts:57-60 | a list item carries its position, the crumb's name and the crumb's URL |
| SeoSchemas.BreadcrumbFields | frontend/src/utils/seoSchemas.ts:53-62 | the BreadcrumbList has one list item per crumb, in order, crumb `i` at position `i + 1` |
| SeoSchemas.BreadcrumbRoundTrip | frontend/src/utils/seoSchemas.ts:56-61 | list items numbered from any start read back to exactly the crumbs they were made from |
| SeoSchemas.BreadcrumbReadsBack | frontend/src/utils/seoSchemas.ts:53-62 | the crumbs can be recovered from the BreadcrumbList, positions counting from 1 |
| SeoSchemas.CollectionPageFields | frontend/src/utils/seoSchemas.ts:64-75 | a CollectionPage carries the given title, description and URL and is part of the site at https://example.com |
| Sitemap.CurrentDateOfIso | frontend/scripts/generate-sitemap.js:23 | the build day is the date part of the ISO time, everything before its `T` |
| Sitemap.BlocksPrefix | frontend/scripts/generate-sitemap.js:28-36 | each pass of the `forEach` adds the block of the next page after those of the pages before it |
| Sitemap.AppendBlocks | frontend/scripts/generate-sitemap.js:28-36 | the loop leaves the document begun so far followed by one `<url>` block per page, in page order |
| Sitemap.GenerateSitemap | frontend/scripts/generate-sitemap.js:22-39 | the sitemap is the XML declaration and `<urlset>` opening, the blocks of the five pages dated with the build day, and the closing `</urlset>` |
| Sitemap.BlocksAppend | frontend/scripts/generate-sitemap.js:28-36 | the blocks of two runs of pages are the first run's blocks followed by the second's |
| Sitemap.BlocksListEveryPage | frontend/scripts/generate-sitemap.js:28-36 | every page's `<loc>` (site URL then page path) appears among the blocks |
| Sitemap.DocumentListsEveryPage | frontend/scripts/generate-sitemap.js:25-39 | the document starts with the XML declaration, ends with `</urlset>` and holds every page's `<loc>` |
| Sitemap.SitemapListsPages | frontend/scripts/generate-sitemap.js:14-39 | the generated sitemap holds the `<loc>` of each of the five listed pages |
| Sitemap.RobotsFacts | frontend/scripts/generate-sitemap.js:51-73 | `robots.txt` allows every crawler, points to the site's `/sitemap.xml` and disallows `/api/` |
| OptimizeImages.Merge | frontend/scripts/optimize-images.ts:24-26 | each setting given by the caller wins; every setting left out takes the default |
| OptimizeImages.MergeExtremes | frontend/scripts/optimize-images.ts:13-26 | with no settings the configuration is the default one; with every setting given it is exactly the caller's |
| OptimizeImages.CliConfig | frontend/scripts/optimize-images.ts:135-139 | the command line's input and output directories are used when non-empty and fall back to `public/images` and `public/images/optimized`; formats, widths and quality stay the defaults |
| OptimizeImages.ImageNames | frontend/scripts/optimize-images.ts:68-71 | exactly the listed files whose lower-cased name ends in `.jpg`, `.jpeg`, `.png` or `.webp` are kept |
| OptimizeImages.ImageFiles | frontend/scripts/optimize-images.ts:62-73 | a missing directory gives no images; otherwise each kept file, in listing order, joined to the directory |
| OptimizeImages.ExtensionMakesImage | frontend/scripts/optimize-images.ts:68-71 | any name ending in one of the four extensions is an image |
| OptimizeImages.LastCharRulesOut | frontend/scripts/optimize-images.ts:68-71 | a name whose last character is neither `g` nor `p` in any case is not an image |
| OptimizeImages.Row | frontend/scripts/optimize-images.ts:107-116 | one width gives one variant name `name_Ww.fmt` per format, in format order |
| OptimizeImages.VariantCount | frontend/scripts/optimize-images.ts:106-117 | there is one variant per width and format pair |
| OptimizeImages.VariantAt | frontend/scripts/optimize-images.ts:106-117 | the variants come width by width, each width's formats in order: pair `(i, j)` is at `i * formats + j` |
| OptimizeImages.DefaultVariantCount | frontend/scripts/optimize-images.ts:16-17 | the default five widths and three formats give fifteen variants per image |
| OptimizeImages.OutputDir.constructor | frontend/scripts/optimize-images.ts:56-60 | the output directory starts with the files already in it |
| OptimizeImages.OutputDir.CopyIfAbsent | frontend/scripts/optimize-images.ts:113-115 | a variant is copied only when no file of that name exists; an existing file is left as it was |
| OptimizeImages.OutputDir.CopyRow | frontend/scripts/optimize-images.ts:107-116 | after one width, the directory holds the old files unchanged plus that width's variants, each new one a copy of the image |
| OptimizeImages.OutputDir.CreateResponsiveVariants | frontend/scripts/optimize-images.ts:102-118 | afterwards the directory holds every variant name; files already there keep their contents and every new file is a copy of the original image |
| OptimizeImages.UnitIndex | frontend/scripts/optimize-images.ts:125 | the unit index is the floor of the size's logarithm to base 1024 |
| OptimizeImages.FormatBytes | frontend/scripts/optimize-images.ts:120-121 | a size of zero is written "0 Bytes" |
| OptimizeImages.FormatBytesUnit | frontend/scripts/optimize-images.ts:120-128 | a non-zero size is scaled into [1, 1024) and followed by its unit; sizes of 1024^4 bytes and more get the unit `undefined` |
| OptimizeImages.MonotonePow | frontend/scripts/optimize-images.ts:125-127 | higher powers of 1024 are no smaller |
| OptimizeImages.SavingsPercentage | frontend/scripts/optimize-images.ts:96-97 | no saving is reported as "0"; otherwise the saving is a percentage in (0, 100] of the input size |
| PwaInstallPrompt.HookProperty | frontend/src/utils/pwa.ts:381-388 | the hook's result has the state flags `isOnline`, `isInstalled` and `canInstall`; any other name reads as `undefined` |
| PwaInstallPrompt.SeenAsWritten | frontend/src/components/PWAInstallPrompt.jsx:5-10 | destructuring `isInstallPromptAvailable` and `isPWAInstalled` from the hook gives `undefined` for both, whatever the browser's state |
| PwaInstallPrompt.Seen | frontend/src/components/PWAInstallPrompt.jsx:5-10 | reading the names the hook returns gives installation offered and installed as the browser reports them |
| PwaInstallPrompt.Rendered | frontend/src/components/PWAInstallPrompt.jsx:50-52 | the banner is rendered exactly when it is to be shown and the app is not installed |
| PwaInstallPrompt.ShowStep | frontend/src/components/PWAInstallPrompt.jsx:15-20 | the show effect turns the banner on when installation is offered, the app is not installed and it was not dismissed, and otherwise leaves it as it was |
| PwaInstallPrompt.MountHonoursDismissal | frontend/src/components/PWAInstallPrompt.jsx:15-48 | with the dismissal read before the show effect, the banner appears at mount exactly when installation is offered, the app is not installed and there is no recent dismissal |
| PwaInstallPrompt.MountIgnoresDismissalAsWritten | frontend/src/components/PWAInstallPrompt.jsx:15-48 | with the effects in the order written, the banner appears at mount whenever installation is offered and the app is not installed, whatever is stored |
| PwaInstallPrompt.InstallPrompt.constructor | frontend/src/components/PWAInstallPrompt.jsx:12-13 | the banner starts hidden and not dismissed |
| PwaInstallPrompt.InstallPrompt.ShowEffect | frontend/src/components/PWAInstallPrompt.jsx:15-20 | the banner flag becomes the show step of its old value and the current dismissal |
| PwaInstallPrompt.InstallPrompt.HandleInstall | frontend/src/components/PWAInstallPrompt.jsx:22-27 | an accepted install hides the banner; a declined one leaves it as it was |
| PwaInstallPrompt.InstallPrompt.HandleDismiss | frontend/src/components/PWAInstallPrompt.jsx:29-34 | dismissing hides the banner, marks it dismissed and stores the current time under `pwa-prompt-dismissed`, nothing else in storage changing |
| PwaInstallPrompt.InstallPrompt.MountCheck | frontend/src/components/PWAInstallPrompt.jsx:37-48 | a stored dismissal younger than 24 hours marks the banner dismissed; any other non-empty stored value is removed; storage is otherwise unchanged |
| PwaInstallPrompt.InstallPrompt.MountAsWritten | frontend/src/components/PWAInstallPrompt.jsx:15-48 | the first render's effects in React's order (show, mount check, show again) leave the banner as the as-written mount outcome and the dismissal as read from storage |
| PwaInstallPrompt.InstallPrompt.Mount | frontend/src/components/PWAInstallPrompt.jsx:15-48 | with the mount check first, the banner ends as the dismissal-honouring mount outcome |
| PwaInstallPrompt.DismissalWindow | frontend/src/components/PWAInstallPrompt.jsx:33-44 | a dismissal stored at time `t` counts as recent exactly until `t` plus 24 hours |
| PwaInstallPrompt.DismissalIgnoredAtMount | frontend/src/components/PWAInstallPrompt.jsx:15-48 | a dismissal less than 24 hours old does not stop the banner at mount in the written effect order, but does when it is read first |
| PwaInstallPrompt.NeverShownAsWritten | frontend/src/components/PWAInstallPrompt.jsx:5-20 | as written the banner is never turned on, whatever the browser offers or storage holds |
| PwaInstallPrompt.ShownWhenInstallable | frontend/src/components/PWAInstallPrompt.jsx:5-48 | reading the hook's own names with the dismissal read first, the banner appears at mount exactly when installable, not installed and not recently dismissed |

## Left out

**Parts of the system outside the model**

- I/O of every kind is left out. That covers HTTP, `fetch`, the DOM, timers, `fs` and the console. Their results, where the code branches on them, are parameters.
- Clocks, `Math.random` and `Date` parsing are parameters.
- Concurrency in the rate limiter is left out: its map of windows is updated sequentially.
- Spring machinery is left out: transaction annotations, Bean Validation, and how filters and configuration are registered. The `@Cacheable` and `@CacheEvict` annotations of `ProjectService` are modelled, as the `cache` field of `ProjectService.Projects`; Spring's cache proxy itself is not.
- `SecurityConfig` and `RateLimitingFilter` are modelled as if they were active. In the source, the annotations that would register them are commented out.
- Cryptography is left out. SHA-256 and SHA-1 digests, BCrypt and JWT signing and parsing are abstract functions passed as parameters.

**Floating point and drawing**

- Floating-point arithmetic is modelled over `real`, with rounding and `toFixed` given as parameters.
- The background's canvas drawing, its trigonometric spiral positions and its twinkle are left out.
- The rotation of a haze segment is `Math.atan2` of the band's direction plus a jitter. Only the jitter is modelled, as `rotJitter`. `Math.hypot`, which gives the band's length, is a parameter of `Particles.Universe.constructor` and `Particles.Universe.Resize`, assumed non-negative.
- The background's gravity pull and respawn (`Particles.jsx` lines 280-295) run after the bounce and are left out. The bounce bounds therefore hold at the point where the bounce ends.
- Particles.Universe.Step, Particles.Universe.Advance and Particles.Universe.Drift: because gravity and respawn are left out, their contracts describe the source only on frames where no particle comes within a black hole's influence. A particle within a hole's influence (288 to 544 pixels) also has its `radius` and `av` nudged in the source, and one within the horizon is respawned with a new `radius`, `angle` and `av` sign, so `ParticlesSwirled` is not the source's particle state on such a frame. A respawn also draws three times from the seeded generator (`rand`, `rand` and `choice`, lines 292-294) before the shooting-star test at line 348, so on such a frame the source tests a later draw than the `old(rng.NextDraw())` that `Advance` and `Step` state.
- The cursor trail's canvas drawing and easing arithmetic are left out. The eased point and the decayed scale are parameters.

**Simplifications in the backend**

- Both `slugify` versions are modelled on ASCII input only. Unicode NFD normalisation is not modelled; a character outside ASCII letters and digits acts as a separator.
- `DataLoader.FindBySlug` returns the first member with the slug. With duplicate slugs the JPA finder would throw instead.
- `ExperienceService.List` reads the profile's experiences in table order and sorts them as `ProfileMapper.ToExperienceDtos` does. The repository's `ORDER BY orderIndex` is not modelled, so experiences that tie in the sort keep their table order, where the database leaves that order unspecified.

**Frontend operations not modelled**

- `AuthContextTsx`: the network sequencing of `login`, `register`, `logout`, `deleteAccount`, `refreshToken` and `postCredentials`. Their building blocks are modelled: normalising, storing and clearing the session, the refresh delay, and authorised requests.
- `AuthContextJsx`: `login` and `register`, for the same reason.
- `Pwa`:
  - `updateServiceWorker`;
  - subscribing to and unsubscribing from push notifications, and `showNotification`;
  - the `isInstalled` and `isOnline` readings;
  - the service-worker registration and update events.
- `ServiceWorker`:
  - the background-sync handlers for contact forms and profile updates;
  - the `message` handler (`SKIP_WAITING`, `CACHE_URLS`);
  - the `notificationclose` listener.
- `PerformanceMonitor`:
  - the console output of its observers;
  - `measureComponentRender` and `measureAsyncOperation`;
  - `getBundleSize` and `getMemoryUsage`.
- `OptimizedImage`: the IntersectionObserver and WebP detection. `inView` and `webp` are parameters.
- `Dashboard`: the `loadProfile` and `handleLogin` flows. Only the form conversions, the payloads and the section state are modelled.
- `MemberPage`:
  - setting `document.title` is left out;
  - its `handleImageError` is the same rule as the one on the home page, so it shares `App.ImageElement.HandleImageError`.
- `OptimizeImages`: `optimizeImages` and `processImage` are sequences of file operations. Only the configuration, the file filter, the variant names, `formatBytes` and the savings percentage are modelled.

**Deliberately weaker contracts**

- `PwaInstallPrompt.HookProperty`: only the hook's three state flags are modelled. Its `isUpdateAvailable` flag and the functions it returns read as `undefined`.
- `PwaInstallPrompt.InstallPrompt.HandleInstall`: the outcome of the browser's install prompt is a parameter. As written, `showInstallPrompt` is also a name the hook does not return, so calling it would fail. The banner that holds the button is never shown, though, so the failure cannot be reached.
- `ProjectsController.All`: `ProjectsController.java` line 36 assigns the `List<ProjectDto>` that `getProjects` returns to a `List<Project>`, so the controller does not compile as written. The model reads the listing as the DTOs the service returns. It builds the ETag signature from each DTO's id, title and owner-summary slug, the fields `generateEtag` reads.
- `Text.Lower`: lowercases the ASCII capitals only. Java's `toLowerCase(Locale.ENGLISH)` and `equalsIgnoreCase`, and JavaScript's `toLowerCase`, also map non-ASCII capitals, such as 'É' to 'é'. The same gap holds for its users: `AuthService.NormalizeEmail`, `AuthService.Auth.Login`, `ErrorTestController.TestErrors`, the case-insensitive title match of `DataLoader.FindByTitle` and the extension filter of `OptimizeImages`.
- `DataLoader.FindByTitle`: returns the first project whose title matches ignoring case. `findByTitleIgnoreCase` returns an `Optional` and would throw with two matches, and project creation allows such duplicates.

## Findings

| source | as written | input that shows it | evidently intended | confidence | as-written member | corrected member |
|---|---|---|---|---|---|---|
| backend/src/main/java/com/example/portfolio/service/ProjectService.java:29 | the cache key is the member slug, or the literal `ALL` when no slug has text | slug `"ALL"` after a call with no slug: the member's cached listing is all projects | a key that cannot collide with a member slug | not executed | `ProjectService.CacheKeyAsWrittenCollides` | `ProjectService.CacheKeySound` |
| backend/src/main/java/com/example/portfolio/config/RateLimitingFilter.java:73-74 | the client is `split(",")[0]` of a non-empty `X-Forwarded-For` | the header `","`: `split` returns an empty array and indexing it throws | the first entry, trimmed, without an exception: the empty client for a header of commas only, as `split(",", -1)[0]` gives, and the same client as written wherever the code as written returns | not executed | `RateLimitingFilter.ClientIpAsWrittenFails` | `RateLimitingFilter.ClientIpAgrees` |
| frontend/src/state/AuthContext.jsx:23-30 | normalising keeps only `payload.token` | a backend login response, which names its token `accessToken`: the session has no token and the user is not signed in | read `token`, else `accessToken`, as the TypeScript context does | not executed | `AuthContextJsx.BackendLoginLostAsWritten` | `AuthContextJsx.BackendLoginKept` |
| frontend/src/components/PWAInstallPrompt.jsx:5-10 | the banner reads `isInstallPromptAvailable` and `isPWAInstalled`, which the hook does not return | any browser state, installable and not installed: both read `undefined` and the banner never shows | read the hook's `canInstall` and `isInstalled` | not executed | `PwaInstallPrompt.NeverShownAsWritten` | `PwaInstallPrompt.ShownWhenInstallable` |
| frontend/src/components/PWAInstallPrompt.jsx:15-48 | the show effect runs before the effect that reads the stored dismissal | a dismissal stored one hour ago, with installation offered: the banner shows at mount, once the banner reads the hook's `canInstall`/`isInstalled` (as written the names bug of the row above keeps it hidden for every input) | a dismissal younger than 24 hours keeps the banner hidden | not executed | `PwaInstallPrompt.DismissalIgnoredAtMount` | `PwaInstallPrompt.MountHonoursDismissal` |
| frontend/src/pages/MemberPage.jsx:79-84 | `variants[member.slug]` is a property lookup on an object literal, which falls through to `Object.prototype` | slug `constructor`, which a member named "Constructor" gets: the lookup finds the truthy `Object` function, the theme is undefined, and speed and density are NaN | the default variant for every slug but the three known ones | not executed | `MemberPage.ConstructorSlugAsWritten` | `MemberPage.DefaultBackground` |
| frontend/public/sw.js:54 | activation deletes every cache whose name starts with `portfolio-pwa-` and is not the bare version name | the caches `portfolio-pwa-v1.0.0-static` and `portfolio-pwa-v1.0.0-api` that the worker itself filled: both are deleted, and `/offline.html` is lost | delete only caches of the prefix that are none of the current ones | not executed | `ServiceWorker.StaticCacheLostAsWritten` | `ServiceWorker.OfflinePageSurvivesActivate` |
