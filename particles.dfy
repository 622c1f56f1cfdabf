/**
 * The particle background engine of the UI manager, as pure functions:
 * the per-condition profile table, building one particle from random
 * draws, building a whole pool, the per-kind motion rule, the frame-delta
 * clamp and the toroidal wrap.
 *
 * Every `Math.random()` call of the source is one element of a draw
 * sequence, consumed from the front in the order the source calls it.
 */
module Particles {
  import opened Wrappers

  /** The `type` tag a profile may ask for. */
  datatype ParticleType = SparkleType | HazeType | CloudType | RainType | SnowType

  /** One visual profile (an entry of the particle configuration table). */
  datatype Profile = Profile(
    count: nat,
    types: seq<ParticleType>,
    colors: seq<string>,
    speed: real,
    minSize: real, maxSize: real,
    minOpacity: real, maxOpacity: real,
    angle: Option<real>,
    drift: Option<real>,
    lightning: bool,
    blur: bool)

  /** What every entry of the table satisfies and particle construction relies on. */
  predicate ValidProfile(cfg: Profile) {
    && |cfg.types| > 0
    && |cfg.colors| > 0
    && cfg.minSize <= cfg.maxSize
    && cfg.minOpacity <= cfg.maxOpacity
  }

  const DefaultCondition: string := "Clear"

  const ParticleConfig: map<string, Profile> := map[
    "Clear" := Profile(30, [SparkleType, HazeType],
      ["rgba(255, 220, 150, 0.6)", "rgba(255, 200, 100, 0.4)"],
      0.05, 2.0, 6.0, 0.4, 0.8, None, None, false, false),
    "Clouds" := Profile(18, [CloudType],
      ["rgba(220, 240, 255, 0.5)", "rgba(200, 220, 240, 0.45)"],
      0.02, 40.0, 90.0, 0.2, 0.35, None, None, false, true),
    "Rain" := Profile(85, [RainType],
      ["rgba(160, 210, 255, 0.7)", "rgba(130, 190, 255, 0.65)"],
      6.0, 12.0, 22.0, 0.5, 0.8, Some(-0.2), None, false, false),
    "Snow" := Profile(60, [SnowType],
      ["rgba(255, 255, 255, 0.9)", "rgba(235, 245, 255, 0.85)"],
      2.0, 3.0, 8.0, 0.7, 1.0, None, Some(0.3), false, true),
    "Thunderstorm" := Profile(100, [RainType],
      ["rgba(100, 170, 255, 0.8)", "rgba(70, 140, 255, 0.75)"],
      10.0, 16.0, 26.0, 0.6, 0.9, Some(-0.3), None, true, false),
    "Mist" := Profile(15, [CloudType],
      ["rgba(210, 220, 230, 0.35)", "rgba(190, 200, 210, 0.3)"],
      0.01, 70.0, 120.0, 0.15, 0.25, None, None, false, true)
  ]

  /** `condition || 'Clear'`: the empty string is falsy. */
  function EffectiveCondition(condition: string): (c: string)
    ensures c != ""
    ensures condition != "" ==> c == condition
    ensures condition == "" ==> c == DefaultCondition
  {
    if condition == "" then DefaultCondition else condition
  }

  /** `PARTICLE_CONFIG[condition] || PARTICLE_CONFIG.Clear`: an unknown key degrades to Clear. */
  function ProfileFor(condition: string): (cfg: Profile)
    ensures ValidProfile(cfg)
  {
    if condition in ParticleConfig then ParticleConfig[condition] else ParticleConfig[DefaultCondition]
  }

  /** Any condition outside the table, the falsy one included, gets the Clear profile. */
  lemma UnknownConditionIsClear(condition: string)
    requires condition !in ParticleConfig
    ensures ProfileFor(condition) == ProfileFor(DefaultCondition)
    ensures ProfileFor(condition).count == 30
    ensures ProfileFor(condition).types == [SparkleType, HazeType]
  {
  }

  /** `condition || 'Clear'` selects the same profile as `condition` itself. */
  lemma EffectiveConditionSameProfile(condition: string)
    ensures ProfileFor(EffectiveCondition(condition)) == ProfileFor(condition)
  {
    if condition == "" {
      assert "" !in ParticleConfig;
    }
  }

  /** The configured pool size of every known condition, and of any other one. */
  lemma ProfileCounts(condition: string)
    ensures ProfileFor(condition).count ==
      match condition
      case "Clouds" => 18
      case "Rain" => 85
      case "Snow" => 60
      case "Thunderstorm" => 100
      case "Mist" => 15
      case _ => 30
  {
  }

  /** `cfg.angle || 0` */
  function AngleOf(cfg: Profile): (a: real)
    ensures cfg.angle.Some? ==> a == cfg.angle.value
    ensures cfg.angle.None? ==> a == 0.0
  {
    match cfg.angle
    case Some(a) => a
    case None => 0.0
  }

  /** `cfg.drift || 0.2`: a drift of 0 is falsy too. */
  function DriftOf(cfg: Profile): (d: real)
    ensures d != 0.0
    ensures cfg.drift.Some? && cfg.drift.value != 0.0 ==> d == cfg.drift.value
    ensures cfg.drift.None? || cfg.drift.value == 0.0 ==> d == 0.2
  {
    match cfg.drift
    case Some(d) => if d != 0.0 then d else 0.2
    case None => 0.2
  }

  const HazeColor: string := "rgba(255, 235, 200, 0.2)"

  /** The most draws one particle consumes. */
  const MaxDraws: nat := 10

  /** Every draw is a result of `Math.random()`. */
  predicate UnitDraws(rnd: seq<real>) {
    forall i :: 0 <= i < |rnd| ==> 0.0 <= rnd[i] < 1.0
  }

  lemma ScaleInRange(r: real, e: real)
    requires 0.0 <= r < 1.0 && 0.0 <= e
    ensures 0.0 <= r * e <= e
    ensures e > 0.0 ==> r * e < e
  {
    assert e - r * e == (1.0 - r) * e;
  }

  /** `Math.floor(r * n)` for a draw `r`: a valid index into `n` elements. */
  function Index(r: real, n: nat): (i: nat)
    requires 0.0 <= r < 1.0 && n > 0
    ensures i < n
  {
    var e := n as real;
    ScaleInRange(r, e);
    var f := (r * e).Floor;
    assert f as real <= r * e < e;
    assert f < n;
    f
  }

  /** The index is the floor of `r * n`: the largest whole number not above it. */
  lemma IndexIsFloor(r: real, n: nat)
    requires 0.0 <= r < 1.0 && n > 0
    ensures Index(r, n) as real <= r * n as real < Index(r, n) as real + 1.0
  {
  }

  /** `lo + r * (hi - lo)` */
  function Between(lo: real, hi: real, r: real): real {
    lo + r * (hi - lo)
  }

  lemma BetweenInRange(lo: real, hi: real, r: real)
    requires lo <= hi && 0.0 <= r < 1.0
    ensures lo <= Between(lo, hi, r) <= hi
  {
    var e := hi - lo;
    ScaleInRange(r, e);
    assert Between(lo, hi, r) == lo + r * e;
  }

  /**
   * One live particle: the common base (position, opacity, color) and the
   * fields its kind carries.
   */
  datatype Particle =
    | Sparkle(x: real, y: real, opacity: real, color: string,
              radius: real, speedX: real, speedY: real, pulse: real, pulseSpeed: real)
    | Haze(x: real, y: real, opacity: real, color: string,
           radius: real, speedX: real, speedY: real)
    | Cloud(x: real, y: real, opacity: real, color: string,
            radius: real, speedX: real, speedY: real, subParticles: nat)
    | Rain(x: real, y: real, opacity: real, color: string,
           length: real, speedY: real, angle: real, thickness: real)
    | Snow(x: real, y: real, opacity: real, color: string,
           radius: real, speedX: real, speedY: real, sway: real, phase: real)
  {
    function Kind(): ParticleType {
      match this
      case Sparkle(_, _, _, _, _, _, _, _, _) => SparkleType
      case Haze(_, _, _, _, _, _, _) => HazeType
      case Cloud(_, _, _, _, _, _, _, _) => CloudType
      case Rain(_, _, _, _, _, _, _, _) => RainType
      case Snow(_, _, _, _, _, _, _, _, _) => SnowType
    }
  }

  /** `v = Math.random() * extent`: inside `[0, extent)`, or 0 on an empty extent. */
  predicate InExtent(v: real, extent: nat) {
    0.0 <= v <= extent as real && (v < extent as real || extent == 0)
  }

  lemma ScaleInExtent(r: real, extent: nat)
    requires 0.0 <= r < 1.0
    ensures InExtent(r * extent as real, extent)
  {
    var e := extent as real;
    ScaleInRange(r, e);
    if extent != 0 {
      assert e > 0.0;
    }
  }

  /** The kind-specific ranges a freshly built particle lies in. */
  predicate ShapeFits(cfg: Profile, p: Particle) {
    match p
    case Sparkle(_, _, _, _, radius, _, _, pulse, pulseSpeed) =>
      && cfg.minSize <= radius <= cfg.maxSize
      && 0.5 <= pulse <= 1.0
      && 0.02 <= pulseSpeed <= 0.05
    case Haze(_, _, opacity, color, radius, speedX, speedY) =>
      && opacity == cfg.minOpacity * 0.5
      && color == HazeColor
      && 10.0 <= radius <= 40.0
      && -0.015 <= speedX <= 0.015
      && -0.01 <= speedY <= 0.01
    case Cloud(_, _, _, _, radius, speedX, speedY, subParticles) =>
      && cfg.minSize <= radius <= cfg.maxSize
      && cfg.speed <= speedX <= cfg.speed + 0.02
      && -0.0015 <= speedY <= 0.0015
      && subParticles in {3, 4, 5}
    case Rain(_, _, _, _, length, speedY, angle, thickness) =>
      && cfg.minSize <= length <= cfg.maxSize
      && cfg.speed <= speedY <= cfg.speed + 3.0
      && angle == AngleOf(cfg)
      && 1.0 <= thickness <= 2.2
    case Snow(_, _, _, _, radius, _, _, sway, phase) =>
      && cfg.minSize <= radius <= cfg.maxSize
      && 0.0 <= sway <= 0.5
      && 0.0 <= phase <= 100.0
  }

  /** What holds of every particle built from profile `cfg` on a `w` x `h` window. */
  predicate Fits(cfg: Profile, w: nat, h: nat, p: Particle) {
    && p.Kind() in cfg.types
    && InExtent(p.x, w)
    && InExtent(p.y, h)
    && (p.Haze? || (cfg.minOpacity <= p.opacity <= cfg.maxOpacity && p.color in cfg.colors))
    && ShapeFits(cfg, p)
  }

  /** The fields every particle takes from the first five draws. */
  datatype Base = Base(kind: ParticleType, x: real, y: real, opacity: real, color: string)

  /** `type`, `x`, `y`, `opacity` and `color` of the base record, in draw order. */
  function DrawBase(cfg: Profile, w: nat, h: nat, d: seq<real>): (b: Base)
    requires ValidProfile(cfg) && UnitDraws(d) && |d| >= 5
    ensures b.kind in cfg.types
    ensures InExtent(b.x, w) && InExtent(b.y, h)
    ensures cfg.minOpacity <= b.opacity <= cfg.maxOpacity
    ensures b.color in cfg.colors
  {
    ScaleInExtent(d[1], w);
    ScaleInExtent(d[2], h);
    BetweenInRange(cfg.minOpacity, cfg.maxOpacity, d[3]);
    Base(cfg.types[Index(d[0], |cfg.types|)],
         d[1] * w as real,
         d[2] * h as real,
         Between(cfg.minOpacity, cfg.maxOpacity, d[3]),
         cfg.colors[Index(d[4], |cfg.colors|)])
  }

  /** The kind-specific fields of a sparkle, from draws 5 to 9. */
  function MakeSparkle(cfg: Profile, b: Base, d: seq<real>): (p: Particle)
    requires ValidProfile(cfg) && UnitDraws(d) && |d| >= 10
    ensures p.Sparkle? && ShapeFits(cfg, p)
    ensures p.x == b.x && p.y == b.y && p.opacity == b.opacity && p.color == b.color
  {
    BetweenInRange(cfg.minSize, cfg.maxSize, d[5]);
    Sparkle(b.x, b.y, b.opacity, b.color,
            Between(cfg.minSize, cfg.maxSize, d[5]),
            (d[6] - 0.5) * cfg.speed,
            (d[7] - 0.5) * cfg.speed * 0.6,
            0.5 + d[8] * 0.5,
            0.02 + d[9] * 0.03)
  }

  /** A haze blob: its opacity and color are overridden, not drawn from the profile. */
  function MakeHaze(cfg: Profile, b: Base, d: seq<real>): (p: Particle)
    requires UnitDraws(d) && |d| >= 8
    ensures p.Haze? && ShapeFits(cfg, p)
    ensures p.x == b.x && p.y == b.y
  {
    Haze(b.x, b.y, cfg.minOpacity * 0.5, HazeColor,
         10.0 + d[5] * 30.0,
         (d[6] - 0.5) * 0.03,
         (d[7] - 0.5) * 0.02)
  }

  function MakeCloud(cfg: Profile, b: Base, d: seq<real>): (p: Particle)
    requires ValidProfile(cfg) && UnitDraws(d) && |d| >= 9
    ensures p.Cloud? && ShapeFits(cfg, p)
    ensures p.x == b.x && p.y == b.y && p.opacity == b.opacity && p.color == b.color
  {
    BetweenInRange(cfg.minSize, cfg.maxSize, d[5]);
    Cloud(b.x, b.y, b.opacity, b.color,
          Between(cfg.minSize, cfg.maxSize, d[5]),
          cfg.speed + d[6] * 0.02,
          (d[7] - 0.5) * 0.003,
          3 + Index(d[8], 3))
  }

  function MakeRain(cfg: Profile, b: Base, d: seq<real>): (p: Particle)
    requires ValidProfile(cfg) && UnitDraws(d) && |d| >= 8
    ensures p.Rain? && ShapeFits(cfg, p)
    ensures p.x == b.x && p.y == b.y && p.opacity == b.opacity && p.color == b.color
  {
    BetweenInRange(cfg.minSize, cfg.maxSize, d[5]);
    Rain(b.x, b.y, b.opacity, b.color,
         Between(cfg.minSize, cfg.maxSize, d[5]),
         cfg.speed + d[6] * 3.0,
         AngleOf(cfg),
         1.0 + d[7] * 1.2)
  }

  function MakeSnow(cfg: Profile, b: Base, d: seq<real>): (p: Particle)
    requires ValidProfile(cfg) && UnitDraws(d) && |d| >= 10
    ensures p.Snow? && ShapeFits(cfg, p)
    ensures p.x == b.x && p.y == b.y && p.opacity == b.opacity && p.color == b.color
  {
    BetweenInRange(cfg.minSize, cfg.maxSize, d[5]);
    Snow(b.x, b.y, b.opacity, b.color,
         Between(cfg.minSize, cfg.maxSize, d[5]),
         (d[6] - 0.5) * DriftOf(cfg),
         cfg.speed * 0.5 + d[7] * cfg.speed,
         d[8] * 0.5,
         d[9] * 100.0)
  }

  /**
   * One iteration of the construction loop: the base record, then the
   * kind's own fields; returns the particle and the number of draws used.
   */
  function MakeParticle(cfg: Profile, w: nat, h: nat, d: seq<real>): (r: (Particle, nat))
    requires ValidProfile(cfg) && UnitDraws(d) && |d| >= MaxDraws
    ensures Fits(cfg, w, h, r.0)
    ensures 8 <= r.1 <= MaxDraws
  {
    var b := DrawBase(cfg, w, h, d);
    match b.kind
    case SparkleType => (MakeSparkle(cfg, b, d), 10)
    case HazeType => (MakeHaze(cfg, b, d), 8)
    case CloudType => (MakeCloud(cfg, b, d), 9)
    case RainType => (MakeRain(cfg, b, d), 8)
    case SnowType => (MakeSnow(cfg, b, d), 10)
  }

  /** The pool of `n` particles the construction loop pushes, in order. */
  function BuildPool(cfg: Profile, w: nat, h: nat, rnd: seq<real>, n: nat): (pool: seq<Particle>)
    requires ValidProfile(cfg) && UnitDraws(rnd) && |rnd| >= MaxDraws * n
    ensures |pool| == n
    decreases n
  {
    if n == 0 then []
    else
      var (p, used) := MakeParticle(cfg, w, h, rnd);
      [p] + BuildPool(cfg, w, h, rnd[used..], n - 1)
  }

  /** One push of the construction loop: the first particle, then the pool of the remaining draws. */
  lemma BuildPoolStep(cfg: Profile, w: nat, h: nat, rnd: seq<real>, n: nat)
    requires ValidProfile(cfg) && UnitDraws(rnd) && |rnd| >= MaxDraws * n && n > 0
    ensures var (p, used) := MakeParticle(cfg, w, h, rnd);
      && UnitDraws(rnd[used..]) && |rnd[used..]| >= MaxDraws * (n - 1)
      && BuildPool(cfg, w, h, rnd, n) == [p] + BuildPool(cfg, w, h, rnd[used..], n - 1)
  {
  }

  /**
   * Every particle of a built pool fits its profile: its kind is one the
   * profile lists, it lies on the window and its fields are in range.
   */
  lemma {:induction false} PoolFits(cfg: Profile, w: nat, h: nat, rnd: seq<real>, n: nat)
    requires ValidProfile(cfg) && UnitDraws(rnd) && |rnd| >= MaxDraws * n
    ensures forall i :: 0 <= i < n ==> Fits(cfg, w, h, BuildPool(cfg, w, h, rnd, n)[i])
    decreases n
  {
    if n > 0 {
      var (p, used) := MakeParticle(cfg, w, h, rnd);
      PoolFits(cfg, w, h, rnd[used..], n - 1);
    }
  }

  /**
   * The two conditions the source treats alike build the same pool from
   * the same draws: any key outside the table behaves as Clear.
   */
  lemma UnknownConditionBuildsClear(condition: string, w: nat, h: nat, rnd: seq<real>)
    requires condition !in ParticleConfig
    requires UnitDraws(rnd) && |rnd| >= MaxDraws * 30
    ensures BuildPool(ProfileFor(condition), w, h, rnd, 30) == BuildPool(ProfileFor(DefaultCondition), w, h, rnd, 30)
  {
  }

  /** The upper bound of one frame's elapsed time, in milliseconds. */
  const MaxFrameDelta: real := 100.0

  /**
   * The frame delta: a zero (falsy) last timestamp is first replaced by the
   * current one, then the gap is capped at 100 (never raised from below).
   */
  function FrameDelta(lastTimestamp: real, timestamp: real): (dt: real)
    ensures dt <= MaxFrameDelta
    ensures lastTimestamp == 0.0 ==> dt == 0.0
    ensures lastTimestamp != 0.0 && timestamp - lastTimestamp <= MaxFrameDelta ==> dt == timestamp - lastTimestamp
    ensures lastTimestamp != 0.0 && timestamp - lastTimestamp >= MaxFrameDelta ==> dt == MaxFrameDelta
  {
    var base := if lastTimestamp == 0.0 then timestamp else lastTimestamp;
    if timestamp - base < MaxFrameDelta then timestamp - base else MaxFrameDelta
  }

  /**
   * `q` is `p` with only its position changed, except that a sparkle's
   * radius may change too (its pulse). Every other field is kept.
   */
  predicate OnlyPositionChanged(p: Particle, q: Particle) {
    match p
    case Sparkle(_, _, o, c, _, sx, sy, pulse, ps) =>
      q.Sparkle? && q == Sparkle(q.x, q.y, o, c, q.radius, sx, sy, pulse, ps)
    case Haze(_, _, o, c, radius, sx, sy) =>
      q == Haze(q.x, q.y, o, c, radius, sx, sy)
    case Cloud(_, _, o, c, radius, sx, sy, sub) =>
      q == Cloud(q.x, q.y, o, c, radius, sx, sy, sub)
    case Rain(_, _, o, c, len, sy, angle, th) =>
      q == Rain(q.x, q.y, o, c, len, sy, angle, th)
    case Snow(_, _, o, c, radius, sx, sy, sway, phase) =>
      q == Snow(q.x, q.y, o, c, radius, sx, sy, sway, phase)
  }

  /**
   * One particle's position update for elapsed time `dt`. `wave` stands for
   * the sine term of the source (the pulse of a sparkle, the sway of snow).
   */
  function Move(p: Particle, dt: real, wave: real): (q: Particle)
    ensures q.Kind() == p.Kind() && q.opacity == p.opacity && q.color == p.color
    ensures OnlyPositionChanged(p, q)
    ensures p.Sparkle? ==> q.radius == if p.pulse != 0.0 then p.radius + wave * 0.05 else p.radius
  {
    match p
    case Sparkle(x, y, o, c, radius, sx, sy, pulse, ps) =>
      Sparkle(x + sx * dt * 0.1, y + sy * dt * 0.1, o, c,
              if pulse != 0.0 then radius + wave * 0.05 else radius, sx, sy, pulse, ps)
    case Haze(x, y, o, c, radius, sx, sy) =>
      Haze(x + sx * dt * 0.1, y + sy * dt * 0.1, o, c, radius, sx, sy)
    case Cloud(x, y, o, c, radius, sx, sy, sub) =>
      Cloud(x + sx * dt * 0.1, y + sy * dt * 0.1, o, c, radius, sx, sy, sub)
    case Rain(x, y, o, c, len, sy, angle, th) =>
      Rain(if angle != 0.0 then x + angle * dt * 0.1 else x, y + sy * dt * 0.08, o, c, len, sy, angle, th)
    case Snow(x, y, o, c, radius, sx, sy, sway, phase) =>
      Snow(x + sx * dt * 0.1 + wave * sway, y + sy * dt * 0.08, o, c, radius, sx, sy, sway, phase)
  }

  /**
   * A tab that comes back after a long pause moves its particles as far as
   * one 100 ms frame would, however long the gap was.
   */
  lemma LongGapMovesOneCappedFrame(p: Particle, lastTimestamp: real, timestamp: real, wave: real)
    requires lastTimestamp != 0.0 && timestamp - lastTimestamp >= MaxFrameDelta
    ensures Move(p, FrameDelta(lastTimestamp, timestamp), wave) == Move(p, MaxFrameDelta, wave)
    ensures p.Rain? ==> Move(p, FrameDelta(lastTimestamp, timestamp), wave).y == p.y + p.speedY * 8.0
  {
  }

  const WrapMargin: real := 100.0

  /**
   * The wrap of one coordinate: past the far bound it goes to `-100`,
   * then, if below `-100`, to the far bound.
   */
  function WrapCoord(v: real, extent: nat): (r: real)
    ensures -WrapMargin <= r <= extent as real + WrapMargin
    ensures v > extent as real + WrapMargin ==> r == -WrapMargin
    ensures v < -WrapMargin ==> r == extent as real + WrapMargin
    ensures -WrapMargin <= v <= extent as real + WrapMargin ==> r == v
  {
    var v' := if v > extent as real + WrapMargin then -WrapMargin else v;
    if v' < -WrapMargin then extent as real + WrapMargin else v'
  }

  /** Wrapping a wrapped coordinate again leaves it where it is. */
  lemma WrapCoordIdempotent(v: real, extent: nat)
    ensures WrapCoord(WrapCoord(v, extent), extent) == WrapCoord(v, extent)
  {
  }

  /** The area a particle stays in once it has been wrapped. */
  predicate WithinMargin(p: Particle, width: nat, height: nat) {
    && -WrapMargin <= p.x <= width as real + WrapMargin
    && -WrapMargin <= p.y <= height as real + WrapMargin
  }

  /** A particle's whole per-frame update: move, then wrap on the canvas. */
  function StepParticle(p: Particle, dt: real, wave: real, width: nat, height: nat): (q: Particle)
    ensures WithinMargin(q, width, height)
    ensures q.Kind() == p.Kind() && q.opacity == p.opacity && q.color == p.color
    ensures q.x == WrapCoord(Move(p, dt, wave).x, width)
    ensures q.y == WrapCoord(Move(p, dt, wave).y, height)
    ensures OnlyPositionChanged(p, q)
    ensures p.Sparkle? ==> q.radius == Move(p, dt, wave).radius
  {
    var m := Move(p, dt, wave);
    m.(x := WrapCoord(m.x, width), y := WrapCoord(m.y, height))
  }

  /** A particle already inside the margins that does not move is left as it is. */
  lemma StepParticleAtRest(p: Particle, wave: real, width: nat, height: nat)
    requires WithinMargin(p, width, height)
    requires !p.Sparkle? && !p.Snow?
    ensures StepParticle(p, 0.0, wave, width, height) == p
  {
  }

  /**
   * A sparkle, haze blob or cloud at the right wrap bound moving right reappears at exactly
   * `-100`, not at 0 and not removed.
   */
  lemma RightEdgeWrapsToMinusMargin(p: Particle, dt: real, width: nat, height: nat)
    requires (p.Sparkle? || p.Haze? || p.Cloud?) && p.x == width as real + WrapMargin && p.speedX > 0.0 && dt > 0.0
    ensures StepParticle(p, dt, 0.0, width, height).x == -WrapMargin
  {
    assert p.speedX * dt > 0.0;
  }

  /**
   * A frame changes only the position (and a sparkle's radius), so a
   * non-sparkle particle keeps the kind-specific ranges it was built with.
   */
  lemma StepKeepsShape(cfg: Profile, p: Particle, dt: real, wave: real, width: nat, height: nat)
    requires !p.Sparkle? && ShapeFits(cfg, p)
    ensures ShapeFits(cfg, StepParticle(p, dt, wave, width, height))
  {
  }
}
