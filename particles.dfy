/**
 * The procedural galaxy background (`Particles`): the seeded mulberry32 generator,
 * `rand` and `choice`, the entity counts of `initUniverse` / `initParticles`, and
 * the per-frame state changes of `step` that do not depend on trigonometry
 * (galaxy, nebula and black-hole drift with edge wrap, the radius bounce, and the
 * shooting-star list).
 */
module Particles {
  import opened Wrappers
  import Text

  // ---------------------------------------------------------------------------
  // Seeds

  /**
   * The `seed` prop as JavaScript sees it. For a number, `text` is `String(seed)`;
   * rendering numbers as text is not modelled.
   */
  datatype Seed = NoSeed | StringSeed(text: string) | NumberSeed(value: real, text: string)

  /** `if (seed)`: undefined, the empty string and the number 0 are falsy. */
  predicate Truthy(seed: Seed)
  {
    match seed
    case NoSeed => false
    case StringSeed(t) => t != []
    case NumberSeed(v, _) => v != 0.0
  }

  function SeedText(seed: Seed): string
    requires Truthy(seed)
  {
    match seed
    case StringSeed(t) => t
    case NumberSeed(_, t) => t
  }

  /** The hash loop over `String(seed)`: `h = Math.imul(31, h) + charCodeAt(i) | 0`. */
  method HashSeed(text: string) returns (h: int)
    ensures h == Text.Hash31(Text.Utf16(text))
  {
    var units := Text.Utf16(text);
    h := 0;
    var i := 0;
    while i < |units|
      invariant 0 <= i <= |units|
      invariant h == Text.Hash31(units[..i])
    {
      assert units[..i + 1][..i] == units[..i];
      h := (h * 31 + units[i]) % Text.TwoTo32;
      i := i + 1;
    }
    assert units[..i] == units;
  }

  /** The generator state `a = h >>> 0` a truthy seed starts from. */
  function StartState(seed: Seed): bv32
    requires Truthy(seed)
  {
    Text.Hash31(Text.Utf16(SeedText(seed))) as bv32
  }

  /**
   * Only the text of a seed matters: any two truthy seeds with the same text,
   * such as the number 5 and the string "5", start the same generator.
   */
  lemma SameTextSameStart(s1: Seed, s2: Seed)
    requires s1 != NoSeed && s2 != NoSeed && s1.text == s2.text && s1.text != []
    requires s1.NumberSeed? ==> s1.value != 0.0
    requires s2.NumberSeed? ==> s2.value != 0.0
    ensures Truthy(s1) && Truthy(s2) && StartState(s1) == StartState(s2)
  {
  }

  // ---------------------------------------------------------------------------
  // mulberry32

  const Increment: bv32 := 0x6D2B79F5

  /** The output mixing of mulberry32, applied to the already advanced state. */
  function Temper(a: bv32): bv32
  {
    var t := (a ^ (a >> 15)) * (1 | a);
    var t2 := t ^ (t + (t ^ (t >> 7)) * (61 | t));
    t2 ^ (t2 >> 14)
  }

  /** `(x >>> 0) / 4294967296`: an unsigned 32-bit value scaled into the unit interval. */
  function UnitInterval(x: bv32): (r: real)
    ensures 0.0 <= r < 1.0
  {
    (x as int) as real / 4294967296.0
  }

  /** `Math.random`, an external source: its successive values are given as `draws`. */
  class MathRandom {
    const draws: nat -> real
    var used: nat

    ghost predicate Valid()
    {
      forall n: nat :: 0.0 <= draws(n) < 1.0
    }

    constructor (draws: nat -> real)
      requires forall n: nat :: 0.0 <= draws(n) < 1.0
      ensures Valid() && this.draws == draws && used == 0
    {
      this.draws := draws;
      used := 0;
    }

    method Next() returns (r: real)
      requires Valid()
      modifies this
      ensures used == old(used) + 1 && r == draws(old(used))
      ensures 0.0 <= r < 1.0
    {
      r := draws(used);
      used := used + 1;
    }
  }

  /**
   * What `rng()` returns from a given state: the tempered successor of `a` when
   * seeded, otherwise `Math.random` draw number `used`.
   */
  function DrawAt(seeded: bool, a: bv32, draws: nat -> real, used: nat): real
  {
    if seeded then UnitInterval(Temper(a + Increment)) else draws(used)
  }

  /** `rng`: mulberry32 over the closure variable `a` when seeded, `Math.random` otherwise. */
  class Rng {
    const seeded: bool
    const fallback: MathRandom
    var a: bv32

    ghost predicate Valid()
      reads this, fallback
    {
      fallback.Valid()
    }

    constructor (seed: Seed, fallback: MathRandom)
      requires fallback.Valid()
      ensures Valid()
      ensures seeded == Truthy(seed) && this.fallback == fallback
      ensures seeded ==> a == Text.Hash31(Text.Utf16(SeedText(seed))) as bv32
    {
      this.fallback := fallback;
      seeded := Truthy(seed);
      if Truthy(seed) {
        var h := HashSeed(SeedText(seed));
        a := h as bv32;
      } else {
        a := 0;
      }
    }

    /** The value the next `rng()` call returns. */
    function NextDraw(): (r: real)
      requires Valid()
      reads this, fallback
      ensures 0.0 <= r < 1.0
    {
      DrawAt(seeded, a, fallback.draws, fallback.used)
    }

    /** `rng()`: every result lies in [0, 1). */
    method Next() returns (r: real)
      requires Valid()
      modifies this, fallback
      ensures Valid()
      ensures 0.0 <= r < 1.0 && r == old(NextDraw())
      ensures seeded ==> a == old(a) + Increment && r == UnitInterval(Temper(a))
                         && fallback.used == old(fallback.used)
      ensures !seeded ==> a == old(a) && fallback.used == old(fallback.used) + 1
                          && r == fallback.draws(old(fallback.used))
    {
      if seeded {
        a := a + Increment;
        r := UnitInterval(Temper(a));
      } else {
        r := fallback.Next();
      }
    }

    /** `rand(min, max) = rng() * (max - min) + min`. */
    method Rand(min: real, max: real) returns (v: real)
      requires Valid()
      modifies this, fallback
      ensures Valid()
      ensures seeded ==> fallback.used == old(fallback.used)
      ensures !seeded ==> fallback.used == old(fallback.used) + 1
      ensures min <= max ==> min <= v <= max
      ensures min < max ==> v < max
    {
      var u := Next();
      v := Scale(u, min, max);
    }

    /** `choice(arr) = arr[Math.floor(rng() * arr.length)]`; an empty array yields `undefined`. */
    method Choice<T>(arr: seq<T>) returns (k: int, r: Option<T>)
      requires Valid()
      modifies this, fallback
      ensures Valid()
      ensures seeded ==> fallback.used == old(fallback.used)
      ensures !seeded ==> fallback.used == old(fallback.used) + 1
      ensures |arr| > 0 ==> 0 <= k < |arr| && r == Some(arr[k])
      ensures |arr| == 0 ==> r == None
    {
      var u := Next();
      k := ScaledIndex(u, |arr|);
      r := if 0 <= k < |arr| then Some(arr[k]) else None;
    }
  }

  lemma ScaleBounds(u: real, d: real)
    requires 0.0 <= u < 1.0
    ensures d >= 0.0 ==> 0.0 <= u * d <= d
    ensures d > 0.0 ==> u * d < d
    ensures d < 0.0 ==> d <= u * d <= 0.0
  {
    if d > 0.0 {
      assert u * d < 1.0 * d;
    } else if d < 0.0 {
      assert u * (-d) <= 1.0 * (-d);
    }
  }

  /** `u * (max - min) + min`: a draw in [0, 1) mapped onto [min, max). */
  function Scale(u: real, min: real, max: real): (v: real)
    requires 0.0 <= u < 1.0
    ensures min <= max ==> min <= v <= max
    ensures min < max ==> v < max
  {
    var d := max - min;
    ScaleBounds(u, d);
    var w := u * d;
    assert min <= max ==> 0.0 <= w <= d;
    assert min < max ==> w < d;
    w + min
  }

  /** `Math.floor(u * n)` for a draw `u` in [0, 1) is a valid index of an array of length `n`. */
  function ScaledIndex(u: real, n: nat): (k: int)
    requires 0.0 <= u < 1.0
    ensures n > 0 ==> 0 <= k < n
    ensures n == 0 ==> k == 0
  {
    ScaleBounds(u, n as real);
    (u * n as real).Floor
  }

  // ---------------------------------------------------------------------------
  // Number conversions of the source

  /** `Math.round`: halves round up. */
  function Round(x: real): int { (x + 0.5).Floor }

  /** `x | 0` for values well inside the 32-bit range: truncation toward zero. */
  function Trunc(x: real): (n: int)
    ensures x >= 0.0 ==> n as real <= x < n as real + 1.0
    ensures x < 0.0 ==> n as real - 1.0 < x <= n as real
  {
    if x >= 0.0 then x.Floor else -((-x).Floor)
  }

  function MaxInt(a: int, b: int): int { if a >= b then a else b }
  function MinInt(a: int, b: int): int { if a <= b then a else b }
  function MaxReal(a: real, b: real): real { if a >= b then a else b }
  function MinReal(a: real, b: real): real { if a <= b then a else b }

  /**
   * `area / (unit / density)`. A zero density makes the divisor infinite and the
   * quotient 0; rounding of floating point is not modelled.
   */
  function PerUnitArea(area: real, unit: real, density: real): real
    requires unit > 0.0
  {
    if density == 0.0 then 0.0 else area * density / unit
  }

  // ---------------------------------------------------------------------------
  // Entity counts

  /** `Math.max(3, Math.min(7, Math.round(area / (450000 / density))))`. */
  function GalaxyCount(width: real, height: real, density: real): (n: int)
    ensures 3 <= n <= 7
    ensures 3 < n < 7 ==> n == Round(PerUnitArea(width * height, 450000.0, density))
  {
    MaxInt(3, MinInt(7, Round(PerUnitArea(width * height, 450000.0, density))))
  }

  /** A larger screen never has fewer galaxies. */
  lemma GalaxyCountMonotone(w1: real, h1: real, w2: real, h2: real, density: real)
    requires density > 0.0 && w1 * h1 <= w2 * h2
    ensures GalaxyCount(w1, h1, density) <= GalaxyCount(w2, h2, density)
  {
    var q1 := PerUnitArea(w1 * h1, 450000.0, density);
    var q2 := PerUnitArea(w2 * h2, 450000.0, density);
    assert (w1 * h1) * density <= (w2 * h2) * density;
    assert q1 <= q2;
  }

  /** `Math.max(3, Math.round(galaxies * 0.4 * blackHoleFactor))`. */
  function BlackHoleCount(galaxies: int, factor: real): (n: int)
    ensures n >= 3
    ensures n > 3 ==> n == Round(galaxies as real * 0.4 * factor)
  {
    MaxInt(3, Round(galaxies as real * 0.4 * factor))
  }

  /** `rand(3, 7) | 0` from the draw `u`: three to six nebulae. */
  function NebulaCount(u: real): (n: int)
    requires 0.0 <= u < 1.0
    ensures 3 <= n <= 6
  {
    ScaleBounds(u, 4.0);
    Trunc(u * 4.0 + 3.0)
  }

  /** `Math.max(300, Math.min(900, Math.floor(area / (9000 / density))))`: floor, not round. */
  function ParticleCount(width: real, height: real, density: real): (n: int)
    ensures 300 <= n <= 900
    ensures 300 < n < 900 ==> n == PerUnitArea(width * height, 9000.0, density).Floor
  {
    MaxInt(300, MinInt(900, PerUnitArea(width * height, 9000.0, density).Floor))
  }

  /**
   * Between the clamps, an area whose particle units have a fractional part of at
   * least one half gives one particle fewer than `Math.round` would.
   */
  lemma ParticleCountFloors(width: real, height: real, density: real)
    requires var q := PerUnitArea(width * height, 9000.0, density);
      300 < q.Floor < 900 && q - q.Floor as real >= 0.5
    ensures ParticleCount(width, height, density) == Round(PerUnitArea(width * height, 9000.0, density)) - 1
  {
    var q := PerUnitArea(width * height, 9000.0, density);
    assert q.Floor as real + 1.0 <= q + 0.5 < q.Floor as real + 2.0;
  }

  /** `(Math.random() * arms) | 0`: the spiral arm of a new particle. */
  function ArmOf(u: real, arms: int): (arm: int)
    requires 0.0 <= u < 1.0 && arms > 0
    ensures 0 <= arm < arms
  {
    var x := u * arms as real;
    ScaleBounds(u, arms as real);
    assert 0.0 <= x < arms as real;
    var n := Trunc(x);
    assert n as real <= x < n as real + 1.0;
    n
  }

  /**
   * The arm is read from `Math.random`, not from the seeded generator: in every
   * galaxy with two or more arms, the lowest draws put a particle on the first
   * arm and the highest on the last.
   */
  lemma ArmNotReproducible(u: real, arms: int)
    requires arms >= 2 && 0.0 <= u < 1.0
    ensures u * arms as real < 1.0 ==> ArmOf(u, arms) == 0
    ensures u * arms as real >= (arms - 1) as real ==> ArmOf(u, arms) == arms - 1
  {
    var x := u * arms as real;
    ScaleBounds(u, arms as real);
    var k := ArmOf(u, arms);
    assert k == Trunc(x);
    assert k as real <= x < k as real + 1.0;
  }


  // ---------------------------------------------------------------------------
  // Entities

  const Pi: real := 3.141592653589793

  /** A galaxy; its wandering centre (`cx`, `cy`) is trigonometric and not modelled. */
  datatype Galaxy = Galaxy(
    maxR: real, spin: real, arms: int, tight: real, coreGlow: real, hues: seq<real>,
    vx: real, vy: real, baseX: real, baseY: real,
    ampX: real, ampY: real, ws: real, phx: real, phy: real)

  datatype BlackHole = BlackHole(
    x: real, y: real, mass: real, horizon: real, influence: real, vx: real, vy: real)

  datatype Nebula = Nebula(
    x: real, y: real, r: real, hue: real, sat: real, light: real, alpha: real, vx: real, vy: real)

  /**
   * A Milky Way haze segment: its centre, shape, the random part of its rotation
   * (the `atan2` of the band's axis is not modelled), and the unit direction
   * (`ux`, `uy`) of the band along which it drifts.
   */
  datatype Haze = Haze(
    x: real, y: real, rx: real, ry: real, rotJitter: real, alpha: real, ux: real, uy: real, speed: real)

  datatype Particle = Particle(
    angle: real, radius: real, av: real, rv: real, r: real,
    hue: real, sat: real, light: real, twSpeed: real, twPhase: real, gIndex: int)

  datatype ShootingStar = ShootingStar(x: real, y: real, vx: real, vy: real, life: real)

  /** The component's props. */
  datatype Config = Config(
    seed: Seed, theme: string, speed: real, density: real, blackHoleFactor: real,
    shootersEnabled: bool, enabled: bool)

  /** The effect's dependency list: the universe is rebuilt when any of these changes. */
  predicate Rebuilds(before: Config, after: Config)
  {
    before.seed != after.seed || before.theme != after.theme || before.speed != after.speed
    || before.density != after.density || before.blackHoleFactor != after.blackHoleFactor
    || before.shootersEnabled != after.shootersEnabled || before.enabled != after.enabled
  }

  /**
   * Every prop is a dependency, so the universe is rebuilt exactly when the props
   * change; in particular switching the effect off and on rebuilds everything.
   */
  lemma ToggleRebuilds(before: Config, after: Config)
    ensures Rebuilds(before, after) <==> before != after
    ensures Rebuilds(before, before.(enabled := !before.enabled))
  {
  }

  // ---------------------------------------------------------------------------
  // Per-frame rules

  /** `Math.min(3, (now - lastT) / 16.67)`: elapsed time in 60 Hz frames, capped at 3. */
  function FrameDelta(now: real, lastT: real): (dt60: real)
    ensures dt60 <= 3.0
    ensures (now - lastT) / 16.67 <= 3.0 ==> dt60 == (now - lastT) / 16.67
  {
    MinReal(3.0, (now - lastT) / 16.67)
  }

  /**
   * The edge wrap of one coordinate: past the low edge it jumps to the high edge,
   * then past the high edge it jumps to the low edge.
   */
  function Wrap(v: real, dim: real, margin: real): (r: real)
    ensures dim + 2.0 * margin >= 0.0 ==> -margin <= r <= dim + margin
    ensures -margin <= v <= dim + margin ==> r == v
    ensures v < -margin && dim + 2.0 * margin >= 0.0 ==> r == dim + margin
    ensures v > dim + margin && dim + 2.0 * margin >= 0.0 ==> r == -margin
  {
    var v1 := if v < -margin then dim + margin else v;
    if v1 > dim + margin then -margin else v1
  }

  /**
   * A galaxy base drifts by its velocity and wraps at `maxR` outside the screen:
   * afterwards it lies within `maxR` of the screen, and only the base moves.
   */
  function MoveGalaxy(g: Galaxy, dt60: real, width: real, height: real): (h: Galaxy)
    ensures h == g.(baseX := h.baseX, baseY := h.baseY)
    ensures g.maxR >= 0.0 && width >= 0.0 && height >= 0.0 ==>
      -g.maxR <= h.baseX <= width + g.maxR && -g.maxR <= h.baseY <= height + g.maxR
    ensures -g.maxR <= g.baseX + g.vx * dt60 <= width + g.maxR ==> h.baseX == g.baseX + g.vx * dt60
    ensures -g.maxR <= g.baseY + g.vy * dt60 <= height + g.maxR ==> h.baseY == g.baseY + g.vy * dt60
  {
    g.(baseX := Wrap(g.baseX + g.vx * dt60, width, g.maxR), baseY := Wrap(g.baseY + g.vy * dt60, height, g.maxR))
  }

  /**
   * A nebula drifts and wraps at its radius outside the screen: afterwards it lies
   * within `r` of the screen, and only its centre moves.
   */
  function MoveNebula(n: Nebula, dt60: real, width: real, height: real): (m: Nebula)
    ensures m == n.(x := m.x, y := m.y)
    ensures n.r >= 0.0 && width >= 0.0 && height >= 0.0 ==>
      -n.r <= m.x <= width + n.r && -n.r <= m.y <= height + n.r
    ensures -n.r <= n.x + n.vx * dt60 <= width + n.r ==> m.x == n.x + n.vx * dt60
    ensures -n.r <= n.y + n.vy * dt60 <= height + n.r ==> m.y == n.y + n.vy * dt60
  {
    n.(x := Wrap(n.x + n.vx * dt60, width, n.r), y := Wrap(n.y + n.vy * dt60, height, n.r))
  }

  /**
   * One drift of a black hole, wrapping 50 outside the screen: afterwards it lies
   * within 50 of the screen, and only its centre moves.
   */
  function DriftHole(b: BlackHole, dt60: real, width: real, height: real): (c: BlackHole)
    ensures c == b.(x := c.x, y := c.y)
    ensures width >= 0.0 && height >= 0.0 ==> -50.0 <= c.x <= width + 50.0 && -50.0 <= c.y <= height + 50.0
    ensures -50.0 <= b.x + b.vx * dt60 <= width + 50.0 ==> c.x == b.x + b.vx * dt60
    ensures -50.0 <= b.y + b.vy * dt60 <= height + 50.0 ==> c.y == b.y + b.vy * dt60
  {
    b.(x := Wrap(b.x + b.vx * dt60, width, 50.0), y := Wrap(b.y + b.vy * dt60, height, 50.0))
  }

  /** Whether a haze centre has left [-0.4, 1.4] of the screen in either direction. */
  predicate OutOfBand(x: real, y: real, width: real, height: real)
  {
    x < -width * 0.4 || y < -height * 0.4 || x > width * 1.4 || y > height * 1.4
  }

  /**
   * A haze segment drifts along the band by `speed * dt60`; once outside the
   * band it is moved back by `1.6 * width` and `1.2 * height` along its direction.
   * Only its centre moves. The band runs from the top left to the bottom right,
   * so a segment inside the band that drifts forwards can only leave it past the
   * right or the bottom edge, and is then moved back up and to the left; without
   * a jump it moves along the band's axis.
   */
  function MoveHaze(m: Haze, dt60: real, width: real, height: real): (n: Haze)
    ensures n == m.(x := n.x, y := n.y)
    ensures m.ux >= 0.0 && m.uy >= 0.0 && m.speed * dt60 >= 0.0 && !OutOfBand(m.x, m.y, width, height) ==>
      var x := m.x + m.ux * m.speed * dt60;
      var y := m.y + m.uy * m.speed * dt60;
      (OutOfBand(x, y, width, height) ==> (x > width * 1.4 || y > height * 1.4))
      && (width >= 0.0 && height >= 0.0 ==> n.x <= x && n.y <= y)
      && (!OutOfBand(x, y, width, height) ==> (n.x - m.x) * m.uy == (n.y - m.y) * m.ux)
  {
    var d := m.speed * dt60;
    var x := m.x + m.ux * m.speed * dt60;
    var y := m.y + m.uy * m.speed * dt60;
    assert m.ux * m.speed * dt60 == m.ux * d && m.uy * m.speed * dt60 == m.uy * d;
    assert (m.ux * d) * m.uy == (m.uy * d) * m.ux;
    assert m.ux >= 0.0 && width >= 0.0 ==> m.ux * (width * 1.6) >= 0.0;
    assert m.uy >= 0.0 && height >= 0.0 ==> m.uy * (height * 1.2) >= 0.0;
    if OutOfBand(x, y, width, height) then m.(x := x - m.ux * (width * 1.6), y := y - m.uy * (height * 1.2))
    else m.(x := x, y := y)
  }

  /** A black hole after `k` drift steps. */
  function DriftTimes(b: BlackHole, k: nat, dt60: real, width: real, height: real): BlackHole
  {
    if k == 0 then b else DriftHole(DriftTimes(b, k - 1, dt60, width, height), dt60, width, height)
  }

  /** After a frame drawn with at least one particle, every black hole lies within 50 of the screen. */
  lemma HoleInView(b: BlackHole, k: nat, dt60: real, width: real, height: real)
    requires k >= 1 && width >= 0.0 && height >= 0.0
    ensures var c := DriftTimes(b, k, dt60, width, height);
      -50.0 <= c.x <= width + 50.0 && -50.0 <= c.y <= height + 50.0
  {
  }

  /**
   * The two bounce checks on a radius: below 16 it is set to 16, then above
   * `maxR` it is set to `maxR`; each bound crossed negates the radial velocity.
   */
  function Bounce(p: Particle, maxR: real): (q: Particle)
    ensures q.radius <= maxR
    ensures maxR >= 16.0 ==> 16.0 <= q.radius
    ensures maxR >= 16.0 ==> q.rv == if 16.0 <= p.radius <= maxR then p.rv else -p.rv
    ensures maxR < 16.0 && p.radius < 16.0 ==> q.radius == maxR && q.rv == p.rv
    ensures 16.0 <= p.radius <= maxR ==> q == p
    ensures q.angle == p.angle && q.av == p.av && q.gIndex == p.gIndex
  {
    var p1 := if p.radius < 16.0 then p.(radius := 16.0, rv := -p.rv) else p;
    if p1.radius > maxR then p1.(radius := maxR, rv := -p1.rv) else p1
  }

  /** Angle and radius advance by their velocities, then the radius bounces. */
  function Swirl(p: Particle, dt60: real, maxR: real): (q: Particle)
    ensures q.gIndex == p.gIndex
  {
    Bounce(p.(angle := p.angle + p.av * dt60, radius := p.radius + p.rv * dt60), maxR)
  }

  function Fly(s: ShootingStar, dt60: real): ShootingStar
  {
    s.(x := s.x + s.vx * dt60, y := s.y + s.vy * dt60, life := s.life - dt60)
  }

  /** The removal test of a shooting star (there is none for the top edge). */
  predicate Gone(s: ShootingStar, width: real, height: real)
  {
    s.life <= 0.0 || s.x < -100.0 || s.x > width + 100.0 || s.y > height + 100.0
  }

  /** Every star moved by one frame, keeping those that are not gone, in order. */
  function Survivors(s: seq<ShootingStar>, dt60: real, width: real, height: real): (r: seq<ShootingStar>)
    ensures |r| <= |s|
    ensures forall k :: 0 <= k < |r| ==> !Gone(r[k], width, height)
    ensures forall i :: 0 <= i < |s| && !Gone(Fly(s[i], dt60), width, height) ==> Fly(s[i], dt60) in r
    ensures forall t :: t in r ==> exists i :: 0 <= i < |s| && t == Fly(s[i], dt60)
  {
    if s == [] then []
    else
      var head := Fly(s[0], dt60);
      var rest := Survivors(s[1..], dt60, width, height);
      assert forall i :: 1 <= i < |s| ==> s[i] == s[1..][i - 1];
      if Gone(head, width, height) then rest else [head] + rest
  }

  /** Pruning is applied piecewise, so the relative order of survivors is that of the list. */
  lemma {:induction false} SurvivorsAppend(a: seq<ShootingStar>, b: seq<ShootingStar>, dt60: real, width: real, height: real)
    ensures Survivors(a + b, dt60, width, height) == Survivors(a, dt60, width, height) + Survivors(b, dt60, width, height)
  {
    if a != [] {
      assert (a + b)[0] == a[0];
      assert (a + b)[1..] == a[1..] + b;
      SurvivorsAppend(a[1..], b, dt60, width, height);
    } else {
      assert a + b == b;
    }
  }

  /** Survivors of a suffix: the star at its head, if it stays, followed by the survivors after it. */
  lemma SurvivorsAt(s: seq<ShootingStar>, i: int, dt60: real, width: real, height: real)
    requires 0 <= i < |s|
    ensures var head := Fly(s[i], dt60);
      Survivors(s[i..], dt60, width, height)
      == (if Gone(head, width, height) then [] else [head]) + Survivors(s[i + 1..], dt60, width, height)
  {
    assert s[i..][0] == s[i];
    assert s[i..][1..] == s[i + 1..];
  }

  /** One step of the backward loop: the star at `i` is moved and kept, or spliced out. */
  lemma ShootingStep(was: seq<ShootingStar>, stars: seq<ShootingStar>, i: int, dt60: real, width: real, height: real)
    requires 0 <= i < |was|
    requires stars == was[..i + 1] + Survivors(was[i + 1..], dt60, width, height)
    ensures i < |stars| && stars[i] == was[i]
    ensures var s := Fly(stars[i], dt60);
      (if Gone(s, width, height) then stars[..i] + stars[i + 1..] else stars[..i] + [s] + stars[i + 1..])
      == was[..i] + Survivors(was[i..], dt60, width, height)
  {
    var tail := Survivors(was[i + 1..], dt60, width, height);
    SurvivorsAt(was, i, dt60, width, height);
    assert was[..i + 1] == was[..i] + [was[i]];
    assert stars[..i] == was[..i];
    assert stars[i + 1..] == tail;
  }

  /**
   * A new shooting star starts above the top quarter of the screen, near its left
   * or its right end, with 24 to 48 frames to live.
   */
  predicate Newborn(s: ShootingStar, width: real, height: real)
  {
    (-50.0 <= s.x <= width * 0.3 || width * 0.7 <= s.x <= width + 50.0)
    && -50.0 <= s.y <= height * 0.25 && 24.0 <= s.life <= 48.0
  }

  /** `v / (len || 1)`: one component of the band's unit direction; a zero length counts as 1. */
  function PerLength(v: real, len: real): (u: real)
    ensures v >= 0.0 && len >= 0.0 ==> u >= 0.0
    ensures len != 0.0 ==> u * len == v
  {
    if len == 0.0 then v else v / len
  }

  /** Every galaxy base moved by one frame, in place. */
  predicate GalaxiesMoved(before: seq<Galaxy>, after: seq<Galaxy>, dt60: real, width: real, height: real)
  {
    |after| == |before| && forall i :: 0 <= i < |before| ==> after[i] == MoveGalaxy(before[i], dt60, width, height)
  }

  /** Every haze segment moved by one frame, in place. */
  predicate HazeMoved(before: seq<Haze>, after: seq<Haze>, dt60: real, width: real, height: real)
  {
    |after| == |before| && forall i :: 0 <= i < |before| ==> after[i] == MoveHaze(before[i], dt60, width, height)
  }

  /** Every nebula moved by one frame, in place. */
  predicate NebulaeMoved(before: seq<Nebula>, after: seq<Nebula>, dt60: real, width: real, height: real)
  {
    |after| == |before| && forall i :: 0 <= i < |before| ==> after[i] == MoveNebula(before[i], dt60, width, height)
  }

  /** Every particle swirled by one frame around its own galaxy, in place. */
  predicate ParticlesSwirled(before: seq<Particle>, after: seq<Particle>, galaxies: seq<Galaxy>, dt60: real)
  {
    |after| == |before|
    && forall i :: 0 <= i < |before| ==>
         0 <= before[i].gIndex < |galaxies| && after[i] == Swirl(before[i], dt60, galaxies[before[i].gIndex].maxR)
  }

  /** Every black hole drifted `k` times, in place. */
  predicate HolesDrifted(before: seq<BlackHole>, after: seq<BlackHole>, k: nat, dt60: real, width: real, height: real)
  {
    |after| == |before| && forall j :: 0 <= j < |before| ==> after[j] == DriftTimes(before[j], k, dt60, width, height)
  }

  /**
   * The shooting stars after a frame's star phase: the survivors of the stars
   * before it, followed by a new star, starting above or beside the screen,
   * when one was spawned.
   */
  ghost predicate StarPhase(before: seq<ShootingStar>, after: seq<ShootingStar>, spawn: bool,
                            dt60: real, width: real, height: real)
  {
    exists born: seq<ShootingStar> ::
      |born| == (if spawn then 1 else 0) && (spawn ==> Newborn(born[0], width, height))
      && after == Survivors(before + born, dt60, width, height)
  }

  // ---------------------------------------------------------------------------
  // The animated universe

  class Universe {
    const cfg: Config
    const rng: Rng
    const noise: MathRandom
    var width: real
    var height: real
    var lastT: real
    var galaxies: seq<Galaxy>
    var blackHoles: seq<BlackHole>
    var nebulae: seq<Nebula>
    var milky: seq<Haze>
    var particles: seq<Particle>
    var stars: seq<ShootingStar>

    ghost predicate Valid()
      reads this, rng, noise
    {
      noise == rng.fallback && noise.Valid()
      && width >= 0.0 && height >= 0.0
      && |galaxies| >= 1
      && (forall i :: 0 <= i < |galaxies| ==> galaxies[i].maxR >= 0.0)
      && (forall i :: 0 <= i < |particles| ==> 0 <= particles[i].gIndex < |galaxies|)
      && |stars| <= 4
    }

    /**
     * Mount at time `now`: size the canvas, then `initUniverse()` and
     * `initParticles()`. `Math.pow(u, 0.45)` and `Math.hypot` are parameters.
     */
    constructor (cfg: Config, width: real, height: real, now: real, noise: MathRandom,
                 pow045: real -> real, hypot: (real, real) -> real)
      requires width >= 0.0 && height >= 0.0 && noise.Valid()
      requires forall u :: 0.0 <= pow045(u) <= 1.0
      requires forall x, y :: hypot(x, y) >= 0.0
      modifies noise
      ensures Valid() && this.cfg == cfg && this.noise == noise
      ensures this.width == width && this.height == height && lastT == now
      ensures |galaxies| == GalaxyCount(width, height, cfg.density)
      ensures |particles| == ParticleCount(width, height, cfg.density)
      ensures stars == []
    {
      this.cfg := cfg;
      this.noise := noise;
      rng := new Rng(cfg.seed, noise);
      this.width := width;
      this.height := height;
      lastT := now;
      galaxies := [Galaxy(0.0, 0.0, 2, 0.0, 0.0, [], 0.0, 0.0, 0.0, 0.0, 0.0, 0.0, 0.0, 0.0, 0.0)];
      blackHoles := [];
      nebulae := [];
      milky := [];
      particles := [];
      stars := [];
      new;
      InitUniverse(hypot);
      InitParticles(pow045);
    }

    /** The three hues of a galaxy, drawn from the ranges of the configured theme. */
    method ThemeHues() returns (hues: seq<real>)
      requires Valid()
      modifies rng, noise
      ensures Valid() && unchanged(this)
      ensures rng.seeded ==> noise.used == old(noise.used)
      ensures |hues| == 3
    {
      var h1, h2, h3;
      if cfg.theme == "cool" {
        h1 := rng.Rand(200.0, 235.0); h2 := rng.Rand(225.0, 255.0); h3 := rng.Rand(260.0, 290.0);
      } else if cfg.theme == "warm" {
        h1 := rng.Rand(15.0, 35.0); h2 := rng.Rand(35.0, 55.0); h3 := rng.Rand(280.0, 300.0);
      } else if cfg.theme == "neon" {
        h1 := rng.Rand(290.0, 320.0); h2 := rng.Rand(170.0, 200.0); h3 := rng.Rand(200.0, 230.0);
      } else {
        h1 := rng.Rand(205.0, 235.0); h2 := rng.Rand(220.0, 245.0); h3 := rng.Rand(30.0, 45.0);
      }
      hues := [h1, h2, h3];
    }

    method MakeGalaxy() returns (g: Galaxy)
      requires Valid()
      modifies rng, noise
      ensures Valid() && unchanged(this)
      ensures rng.seeded ==> noise.used == old(noise.used)
      ensures var m := MinReal(width, height);
        0.22 * m <= g.maxR <= 0.4 * m && (m > 0.0 ==> g.maxR < 0.4 * m)
      ensures g.arms in {2, 3, 4} && |g.hues| == 3
    {
      var marginX := width * 0.15;
      var marginY := height * 0.2;
      var m := MinReal(width, height);
      var gx := rng.Rand(marginX, width - marginX);
      var gy := rng.Rand(marginY, height - marginY);
      var maxR := rng.Rand(m * 0.22, m * 0.4);
      var s1 := rng.Rand(0.005, 0.014);
      var s2 := rng.Rand(0.005, 0.014);
      var _, spin := rng.Choice([s1, -s2]);
      var _, arms := rng.Choice([2, 3, 4]);
      var tight := rng.Rand(0.015, 0.035);
      var coreGlow := rng.Rand(0.6, 1.0);
      var hues := ThemeHues();
      var vx, vy, ampX, ampY, ws, phx, phy := DrawGalaxyDrift();
      g := Galaxy(maxR, spin.value * cfg.speed, arms.value, tight, coreGlow, hues,
                  vx * cfg.speed, vy * cfg.speed, gx, gy, ampX, ampY, ws * cfg.speed, phx, phy);
    }

    /** The draws of a galaxy's drift and wobble, in the order `initUniverse` makes them. */
    method DrawGalaxyDrift() returns (vx: real, vy: real, ampX: real, ampY: real, ws: real, phx: real, phy: real)
      requires Valid()
      modifies rng, noise
      ensures Valid() && unchanged(this)
      ensures rng.seeded ==> noise.used == old(noise.used)
    {
      vx := rng.Rand(-0.10, 0.10);
      vy := rng.Rand(-0.06, 0.06);
      ampX := rng.Rand(40.0, 120.0);
      ampY := rng.Rand(30.0, 90.0);
      ws := rng.Rand(0.05, 0.12);
      phx := rng.Rand(0.0, Pi * 2.0);
      phy := rng.Rand(0.0, Pi * 2.0);
    }

    method MakeBlackHole() returns (b: BlackHole)
      requires Valid()
      modifies rng, noise
      ensures Valid() && unchanged(this)
      ensures rng.seeded ==> noise.used == old(noise.used)
      ensures 18.0 <= b.horizon < 34.0 && b.influence == 16.0 * b.horizon
    {
      var x := rng.Rand(width * 0.2, width * 0.8);
      var y := rng.Rand(height * 0.25, height * 0.75);
      var mass := rng.Rand(2500.0, 7000.0);
      var horizon := rng.Rand(18.0, 34.0);
      var vx := rng.Rand(-0.06, 0.06);
      var vy := rng.Rand(-0.04, 0.04);
      var drift := MaxReal(0.5, cfg.speed * 0.8);
      b := BlackHole(x, y, mass * cfg.blackHoleFactor, horizon, horizon * 16.0, vx * drift, vy * drift);
    }

    method MakeNebula() returns (n: Nebula)
      requires Valid()
      modifies rng, noise
      ensures Valid() && unchanged(this)
      ensures rng.seeded ==> noise.used == old(noise.used)
      ensures var m := MinReal(width, height); 0.2 * m <= n.r <= 0.45 * m
    {
      var m := MinReal(width, height);
      var x := rng.Rand(-width * 0.2, width * 1.2);
      var y := rng.Rand(-height * 0.2, height * 1.2);
      var r := rng.Rand(m * 0.2, m * 0.45);
      var c1 := rng.Rand(200.0, 225.0);
      var c2 := rng.Rand(225.0, 245.0);
      var c3 := rng.Rand(190.0, 205.0);
      var _, hue := rng.Choice([c1, c2, c3]);
      var sat := rng.Rand(20.0, 45.0);
      var light := rng.Rand(30.0, 50.0);
      var alpha := rng.Rand(0.025, 0.05);
      var vx := rng.Rand(-0.02, 0.02);
      var vy := rng.Rand(-0.01, 0.01);
      n := Nebula(x, y, r, hue.value, sat, light, alpha, vx, vy);
    }

    /**
     * The point a fraction `t` of the way along the band, which runs from
     * (-0.2, 0.2) to (1.2, 0.8) of the screen.
     */
    function BandPoint(t: real): (real, real)
      reads this
    {
      (-width * 0.2 + width * 1.4 * t, height * 0.2 + height * 0.6 * t)
    }

    /** Haze segment `i` of 20: jittered around its point of the band, drifting along (`ux`, `uy`). */
    method MakeHaze(i: nat, ux: real, uy: real) returns (z: Haze)
      requires Valid()
      modifies rng, noise
      ensures Valid() && unchanged(this)
      ensures rng.seeded ==> noise.used == old(noise.used)
      ensures var (px, py) := BandPoint(i as real / 19.0);
        px - 40.0 <= z.x <= px + 40.0 && py - 30.0 <= z.y <= py + 30.0
      ensures z.ux == ux && z.uy == uy && 0.25 <= z.speed <= 0.6
    {
      var t := i as real / 19.0;
      var jx := rng.Rand(-40.0, 40.0);
      var x := -width * 0.2 + width * 1.4 * t + jx;
      var jy := rng.Rand(-30.0, 30.0);
      var y := height * 0.2 + height * 0.6 * t + jy;
      var rx := rng.Rand(120.0, 240.0);
      var ry := rng.Rand(40.0, 90.0);
      var rot := rng.Rand(-0.1, 0.1);
      var alpha := rng.Rand(0.015, 0.04);
      var speed := rng.Rand(0.25, 0.6);
      z := Haze(x, y, rx, ry, rot, alpha, ux, uy, speed);
    }

    /** The galaxies of `initUniverse`, `count` of them. */
    method MakeGalaxies(count: nat) returns (gs: seq<Galaxy>)
      requires Valid()
      modifies rng, noise
      ensures Valid() && unchanged(this)
      ensures rng.seeded ==> noise.used == old(noise.used)
      ensures |gs| == count
      ensures forall i :: 0 <= i < |gs| ==> gs[i].maxR >= 0.0 && gs[i].arms in {2, 3, 4} && |gs[i].hues| == 3
    {
      gs := [];
      while |gs| < count
        invariant Valid() && unchanged(this) && |gs| <= count
        invariant rng.seeded ==> noise.used == old(noise.used)
        invariant forall i :: 0 <= i < |gs| ==> gs[i].maxR >= 0.0 && gs[i].arms in {2, 3, 4} && |gs[i].hues| == 3
      {
        var g := MakeGalaxy();
        gs := gs + [g];
      }
    }

    /** The black holes of `initUniverse`, `count` of them. */
    method MakeBlackHoles(count: nat) returns (holes: seq<BlackHole>)
      requires Valid()
      modifies rng, noise
      ensures Valid() && unchanged(this)
      ensures rng.seeded ==> noise.used == old(noise.used)
      ensures |holes| == count
      ensures forall i :: 0 <= i < |holes| ==>
        18.0 <= holes[i].horizon < 34.0 && holes[i].influence == 16.0 * holes[i].horizon
    {
      holes := [];
      while |holes| < count
        invariant Valid() && unchanged(this) && |holes| <= count
        invariant rng.seeded ==> noise.used == old(noise.used)
        invariant forall i :: 0 <= i < |holes| ==>
          18.0 <= holes[i].horizon < 34.0 && holes[i].influence == 16.0 * holes[i].horizon
      {
        var b := MakeBlackHole();
        holes := holes + [b];
      }
    }

    /** The nebulae of `initUniverse`, `count` of them. */
    method MakeNebulae(count: nat) returns (clouds: seq<Nebula>)
      requires Valid()
      modifies rng, noise
      ensures Valid() && unchanged(this)
      ensures rng.seeded ==> noise.used == old(noise.used)
      ensures |clouds| == count
    {
      clouds := [];
      while |clouds| < count
        invariant Valid() && unchanged(this) && |clouds| <= count
        invariant rng.seeded ==> noise.used == old(noise.used)
      {
        var n := MakeNebula();
        clouds := clouds + [n];
      }
    }

    /** The Milky Way haze segments of `initUniverse`, `count` of them, all drifting along (`ux`, `uy`). */
    method MakeHazes(count: nat, ux: real, uy: real) returns (segs: seq<Haze>)
      requires Valid()
      modifies rng, noise
      ensures Valid() && unchanged(this)
      ensures rng.seeded ==> noise.used == old(noise.used)
      ensures |segs| == count
      ensures forall i :: 0 <= i < |segs| ==> segs[i].ux == ux && segs[i].uy == uy
      ensures forall i :: 0 <= i < |segs| ==>
        var (px, py) := BandPoint(i as real / 19.0);
        px - 40.0 <= segs[i].x <= px + 40.0 && py - 30.0 <= segs[i].y <= py + 30.0
    {
      segs := [];
      while |segs| < count
        invariant Valid() && unchanged(this) && |segs| <= count
        invariant rng.seeded ==> noise.used == old(noise.used)
        invariant forall i :: 0 <= i < |segs| ==> segs[i].ux == ux && segs[i].uy == uy
        invariant forall i :: 0 <= i < |segs| ==>
          var (px, py) := BandPoint(i as real / 19.0);
          px - 40.0 <= segs[i].x <= px + 40.0 && py - 30.0 <= segs[i].y <= py + 30.0
      {
        var z := MakeHaze(|segs|, ux, uy);
        segs := segs + [z];
      }
    }

    /**
     * `initUniverse`: every value is drawn through `rand` / `choice`, so with a
     * seed it reads nothing from `Math.random`.
     */
    method InitUniverse(hypot: (real, real) -> real)
      requires Valid()
      requires forall x, y :: hypot(x, y) >= 0.0
      modifies this, rng, noise
      ensures Valid() && lastT == old(lastT)
      ensures width == old(width) && height == old(height) && stars == old(stars) && particles == []
      ensures rng.seeded ==> noise.used == old(noise.used)
      ensures |galaxies| == GalaxyCount(width, height, cfg.density)
      ensures forall i :: 0 <= i < |galaxies| ==> galaxies[i].arms in {2, 3, 4} && |galaxies[i].hues| == 3
      ensures |blackHoles| == BlackHoleCount(|galaxies|, cfg.blackHoleFactor)
      ensures forall i :: 0 <= i < |blackHoles| ==>
        18.0 <= blackHoles[i].horizon < 34.0 && blackHoles[i].influence == 16.0 * blackHoles[i].horizon
      ensures 3 <= |nebulae| <= 6
      ensures |milky| == 20
      ensures forall i :: 0 <= i < |milky| ==> milky[i].ux >= 0.0 && milky[i].uy >= 0.0
    {
      var gs := MakeGalaxies(GalaxyCount(width, height, cfg.density));
      var holes := MakeBlackHoles(BlackHoleCount(|gs|, cfg.blackHoleFactor));
      var u := rng.Rand(3.0, 7.0);
      var clouds := MakeNebulae(Trunc(u));
      var vx, vy := width * 1.4, height * 0.6;
      var len := hypot(vx, vy);
      var segs := MakeHazes(20, PerLength(vx, len), PerLength(vy, len));
      particles, galaxies, blackHoles, nebulae, milky := [], gs, holes, clouds, segs;
    }

    /** One new particle of `initParticles`; arm, radius and brightness come from `Math.random`. */
    method MakeParticle(pow045: real -> real) returns (p: Particle)
      requires Valid()
      requires forall u :: 0.0 <= pow045(u) <= 1.0
      modifies rng, noise
      ensures Valid() && unchanged(this)
      ensures rng.seeded ==> noise.used == old(noise.used) + 3
      ensures 0 <= p.gIndex < |galaxies| && p.radius >= 12.0
    {
      var k, g := rng.Choice(galaxies);
      var gal := g.value;
      var arms := if gal.arms > 0 then gal.arms else 1;
      var u1 := noise.Next();
      var arm := ArmOf(u1, arms);
      var base := arm as real * (Pi * 2.0 / arms as real);
      var u2 := noise.Next();
      var radius := MaxReal(12.0, pow045(u2) * gal.maxR);
      var jitter := rng.Rand(-0.25, 0.25);
      var angle := base + radius * gal.tight + jitter;
      var dav := rng.Rand(-0.003, 0.003);
      var rv := rng.Rand(-0.02, 0.02);
      var hue, sat, light, r, twSpeed, twPhase := DrawParticleLook(gal.hues);
      p := Particle(angle, radius, gal.spin + dav, rv * cfg.speed, r,
                    hue, sat, light, twSpeed, twPhase, k);
    }

    /**
     * The draws of a particle's look: a hue of its galaxy, then (from
     * `Math.random`) whether it is a bright one, which sets the ranges of its
     * lightness, saturation and size; then its twinkle.
     */
    method DrawParticleLook(hues: seq<real>) returns (hue: real, sat: real, light: real, r: real, twSpeed: real, twPhase: real)
      requires Valid()
      modifies rng, noise
      ensures Valid() && unchanged(this)
      ensures rng.seeded ==> noise.used == old(noise.used) + 1
    {
      var _, h := rng.Choice(hues);
      hue := h.GetOr(0.0);
      var u3 := noise.Next();
      var bright := u3 < 0.6;
      if bright {
        light := rng.Rand(78.0, 96.0); sat := rng.Rand(8.0, 25.0); r := rng.Rand(1.2, 2.2);
      } else {
        light := rng.Rand(55.0, 72.0); sat := rng.Rand(10.0, 30.0); r := rng.Rand(0.6, 1.4);
      }
      twSpeed := rng.Rand(0.8, 3.5);
      twPhase := rng.Rand(0.0, Pi * 2.0);
    }

    /** `initParticles`: the particle count, valid galaxy indices and radii of at least 12. */
    method InitParticles(pow045: real -> real)
      requires Valid()
      requires forall u :: 0.0 <= pow045(u) <= 1.0
      modifies this, rng, noise
      ensures Valid()
      ensures galaxies == old(galaxies) && blackHoles == old(blackHoles) && nebulae == old(nebulae)
      ensures width == old(width) && height == old(height) && stars == old(stars) && lastT == old(lastT)
      ensures |particles| == ParticleCount(width, height, cfg.density)
      ensures forall i :: 0 <= i < |particles| ==> particles[i].radius >= 12.0
      ensures rng.seeded ==> noise.used == old(noise.used) + 3 * |particles|
    {
      particles := [];
      var target := ParticleCount(width, height, cfg.density);
      while |particles| < target
        invariant Valid() && |particles| <= target
        invariant galaxies == old(galaxies) && blackHoles == old(blackHoles) && nebulae == old(nebulae)
        invariant width == old(width) && height == old(height) && stars == old(stars) && lastT == old(lastT)
        invariant forall i :: 0 <= i < |particles| ==> particles[i].radius >= 12.0
        invariant rng.seeded ==> noise.used == old(noise.used) + 3 * |particles|
      {
        var p := MakeParticle(pow045);
        particles := particles + [p];
      }
    }

    /** `onResize`: the new size, then a fresh universe and fresh particles. */
    method Resize(w: real, h: real, pow045: real -> real, hypot: (real, real) -> real)
      requires Valid() && w >= 0.0 && h >= 0.0
      requires forall u :: 0.0 <= pow045(u) <= 1.0
      requires forall x, y :: hypot(x, y) >= 0.0
      modifies this, rng, noise
      ensures Valid() && width == w && height == h
      ensures |galaxies| == GalaxyCount(w, h, cfg.density)
      ensures |particles| == ParticleCount(w, h, cfg.density)
    {
      width := w;
      height := h;
      InitUniverse(hypot);
      InitParticles(pow045);
    }

    method MoveGalaxies(dt60: real)
      requires Valid()
      modifies this`galaxies
      ensures Valid() && GalaxiesMoved(old(galaxies), galaxies, dt60, width, height)
    {
      var i := 0;
      while i < |galaxies|
        invariant Valid() && 0 <= i <= |galaxies| && |galaxies| == |old(galaxies)|
        invariant forall k :: 0 <= k < i ==> galaxies[k] == MoveGalaxy(old(galaxies[k]), dt60, width, height)
        invariant forall k :: i <= k < |galaxies| ==> galaxies[k] == old(galaxies[k])
      {
        galaxies := galaxies[i := MoveGalaxy(galaxies[i], dt60, width, height)];
        i := i + 1;
      }
    }

    method MoveHazes(dt60: real)
      requires Valid()
      modifies this`milky
      ensures Valid() && HazeMoved(old(milky), milky, dt60, width, height)
    {
      var i := 0;
      while i < |milky|
        invariant Valid() && 0 <= i <= |milky| && |milky| == |old(milky)|
        invariant forall k :: 0 <= k < i ==> milky[k] == MoveHaze(old(milky[k]), dt60, width, height)
        invariant forall k :: i <= k < |milky| ==> milky[k] == old(milky[k])
      {
        milky := milky[i := MoveHaze(milky[i], dt60, width, height)];
        i := i + 1;
      }
    }

    method MoveNebulae(dt60: real)
      requires Valid()
      modifies this`nebulae
      ensures Valid() && NebulaeMoved(old(nebulae), nebulae, dt60, width, height)
    {
      var i := 0;
      while i < |nebulae|
        invariant Valid() && 0 <= i <= |nebulae| && |nebulae| == |old(nebulae)|
        invariant forall k :: 0 <= k < i ==> nebulae[k] == MoveNebula(old(nebulae[k]), dt60, width, height)
        invariant forall k :: i <= k < |nebulae| ==> nebulae[k] == old(nebulae[k])
      {
        nebulae := nebulae[i := MoveNebula(nebulae[i], dt60, width, height)];
        i := i + 1;
      }
    }

    /**
     * The particle loop: each particle swirls and bounces, and inside it every
     * black hole drifts once, so black holes drift once per particle per frame.
     */
    method MoveParticles(dt60: real)
      requires Valid()
      modifies this`particles, this`blackHoles
      ensures Valid()
      ensures ParticlesSwirled(old(particles), particles, galaxies, dt60)
      ensures HolesDrifted(old(blackHoles), blackHoles, |particles|, dt60, width, height)
    {
      var idx := 0;
      while idx < |particles|
        invariant Valid() && 0 <= idx <= |particles| && |particles| == |old(particles)|
        invariant forall i :: 0 <= i < idx ==>
          particles[i] == Swirl(old(particles[i]), dt60, galaxies[old(particles[i]).gIndex].maxR)
        invariant forall i :: idx <= i < |particles| ==> particles[i] == old(particles[i])
        invariant |blackHoles| == |old(blackHoles)|
        invariant forall j :: 0 <= j < |blackHoles| ==>
          blackHoles[j] == DriftTimes(old(blackHoles[j]), idx, dt60, width, height)
      {
        var p := particles[idx];
        particles := particles[idx := Swirl(p, dt60, galaxies[p.gIndex].maxR)];
        ghost var moved := particles;
        var j := 0;
        while j < |blackHoles|
          invariant particles == moved
          invariant 0 <= j <= |blackHoles| && |blackHoles| == |old(blackHoles)|
          invariant forall k :: 0 <= k < j ==>
            blackHoles[k] == DriftTimes(old(blackHoles[k]), idx + 1, dt60, width, height)
          invariant forall k :: j <= k < |blackHoles| ==>
            blackHoles[k] == DriftTimes(old(blackHoles[k]), idx, dt60, width, height)
        {
          blackHoles := blackHoles[j := DriftHole(blackHoles[j], dt60, width, height)];
          j := j + 1;
        }
        idx := idx + 1;
      }
    }

    /**
     * The spawn test `shootersEnabled && rng() < 0.04 * dt60 && shootingStars.length < 4`:
     * the generator is drawn whenever shooters are enabled, and at most one star is added.
     * `heading(angle, speed)` stands for `(cos(angle) * speed, sin(angle) * speed)`.
     */
    method SpawnShootingStar(dt60: real, heading: (real, real) -> (real, real))
      requires Valid()
      modifies this`stars, rng, noise
      ensures Valid()
      ensures var spawn := cfg.shootersEnabled && old(rng.NextDraw()) < 0.04 * dt60 && |old(stars)| < 4;
        (spawn ==> |stars| == |old(stars)| + 1 && stars[..|old(stars)|] == old(stars)
                   && Newborn(stars[|old(stars)|], width, height))
        && (!spawn ==> stars == old(stars))
      ensures !cfg.shootersEnabled ==> rng.a == old(rng.a) && noise.used == old(noise.used)
    {
      if cfg.shootersEnabled {
        var u := rng.Next();
        if u < 0.04 * dt60 && |stars| < 4 {
          var top := noise.Next();
          var fromTop := top < 0.5;
          var x;
          if fromTop { x := rng.Rand(-50.0, width * 0.3); } else { x := rng.Rand(width * 0.7, width + 50.0); }
          var y := rng.Rand(-50.0, height * 0.25);
          var spd := rng.Rand(6.0, 12.0);
          var angle;
          if fromTop { angle := rng.Rand(Pi * 0.10, Pi * 0.25); } else { angle := rng.Rand(Pi * 0.75, Pi * 0.90); }
          var life := rng.Rand(24.0, 48.0);
          var v := heading(angle, spd * cfg.speed);
          stars := stars + [ShootingStar(x, y, v.0, v.1, life)];
        }
      }
    }

    /** The backward loop over the shooting stars, moving each and splicing out the gone ones. */
    method MoveShootingStars(dt60: real)
      requires Valid()
      modifies this`stars
      ensures Valid()
      ensures stars == Survivors(old(stars), dt60, width, height)
    {
      ghost var was := stars;
      var i := |stars| - 1;
      while i >= 0
        invariant -1 <= i < |was|
        invariant stars == was[..i + 1] + Survivors(was[i + 1..], dt60, width, height)
        invariant |stars| <= |was| && Valid()
        decreases i
      {
        var s := Fly(stars[i], dt60);
        ShootingStep(was, stars, i, dt60, width, height);
        if Gone(s, width, height) {
          stars := stars[..i] + stars[i + 1..];
        } else {
          stars := stars[..i] + [s] + stars[i + 1..];
        }
        i := i - 1;
      }
      assert old(stars)[0..] == old(stars);
    }

    /**
     * The shooting-star phase of a frame: perhaps one new star, then the
     * backward loop over all of them.
     */
    method ShootingStars(dt60: real, heading: (real, real) -> (real, real)) returns (ghost born: seq<ShootingStar>)
      requires Valid()
      modifies this`stars, rng, noise
      ensures Valid()
      ensures var spawn := cfg.shootersEnabled && old(rng.NextDraw()) < 0.04 * dt60 && |old(stars)| < 4;
        |born| == (if spawn then 1 else 0) && (spawn ==> Newborn(born[0], width, height))
        && stars == Survivors(old(stars) + born, dt60, width, height)
    {
      ghost var before := stars;
      SpawnShootingStar(dt60, heading);
      born := stars[|before|..];
      assert stars == before + born;
      MoveShootingStars(dt60);
    }

    /**
     * The motion phases of a frame, in the source's order: galaxy bases, haze,
     * nebulae, then the particles with the black holes drifting once per particle.
     */
    method Drift(dt60: real)
      requires Valid()
      modifies this`galaxies, this`milky, this`nebulae, this`particles, this`blackHoles
      ensures Valid()
      ensures GalaxiesMoved(old(galaxies), galaxies, dt60, width, height)
      ensures HazeMoved(old(milky), milky, dt60, width, height)
      ensures NebulaeMoved(old(nebulae), nebulae, dt60, width, height)
      ensures ParticlesSwirled(old(particles), particles, galaxies, dt60)
      ensures HolesDrifted(old(blackHoles), blackHoles, |particles|, dt60, width, height)
    {
      MoveGalaxies(dt60);
      MoveHazes(dt60);
      MoveNebulae(dt60);
      MoveParticles(dt60);
    }

    /**
     * An enabled frame: the frame delta `dt60` is measured from `lastT`, the
     * motion phases run, and then the shooting-star phase.
     */
    method Advance(now: real, heading: (real, real) -> (real, real))
      requires Valid()
      modifies this, rng, noise
      ensures Valid() && lastT == now && |stars| <= 4
      ensures var dt60 := FrameDelta(now, old(lastT));
        && GalaxiesMoved(old(galaxies), galaxies, dt60, width, height)
        && HazeMoved(old(milky), milky, dt60, width, height)
        && NebulaeMoved(old(nebulae), nebulae, dt60, width, height)
        && ParticlesSwirled(old(particles), particles, galaxies, dt60)
        && HolesDrifted(old(blackHoles), blackHoles, |particles|, dt60, width, height)
      ensures var dt60 := FrameDelta(now, old(lastT));
        var spawn := cfg.shootersEnabled && old(rng.NextDraw()) < 0.04 * dt60 && |old(stars)| < 4;
        StarPhase(old(stars), stars, spawn, dt60, width, height)
    {
      ghost var draw, before := rng.NextDraw(), stars;
      ghost var a0, used0 := rng.a, noise.used;
      var dt60 := FrameDelta(now, lastT);
      lastT := now;
      Drift(dt60);
      assert rng.a == a0 && noise.used == used0;
      ghost var spawn := cfg.shootersEnabled && draw < 0.04 * dt60 && |before| < 4;
      ghost var born := ShootingStars(dt60, heading);
      assert |born| == (if spawn then 1 else 0) && (spawn ==> Newborn(born[0], width, height))
        && stars == Survivors(before + born, dt60, width, height);
      assert StarPhase(before, stars, spawn, dt60, width, height);
    }

    /** One animation frame: when disabled nothing changes, otherwise the frame advances. */
    method Step(now: real, heading: (real, real) -> (real, real))
      requires Valid()
      modifies this, rng, noise
      ensures Valid()
      ensures !cfg.enabled ==> unchanged(this) && unchanged(rng) && unchanged(noise)
      ensures cfg.enabled ==> lastT == now && |stars| <= 4
      ensures cfg.enabled ==> var dt60 := FrameDelta(now, old(lastT));
        && GalaxiesMoved(old(galaxies), galaxies, dt60, width, height)
        && HazeMoved(old(milky), milky, dt60, width, height)
        && NebulaeMoved(old(nebulae), nebulae, dt60, width, height)
        && ParticlesSwirled(old(particles), particles, galaxies, dt60)
        && HolesDrifted(old(blackHoles), blackHoles, |particles|, dt60, width, height)
      ensures cfg.enabled ==> var dt60 := FrameDelta(now, old(lastT));
        var spawn := cfg.shootersEnabled && old(rng.NextDraw()) < 0.04 * dt60 && |old(stars)| < 4;
        StarPhase(old(stars), stars, spawn, dt60, width, height)
    {
      if cfg.enabled {
        Advance(now, heading);
      }
    }
  }
}
