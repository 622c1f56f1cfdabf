/**
 * The animated background's module-level state as one object: the drawing
 * context (present or not), the canvas size, the active condition, the
 * particle pool and the last frame's timestamp. Window sizes, timestamps,
 * `Math.random()` draws and the sine terms are passed in.
 */
module Animation {
  import opened Particles

  /** The pool has the size and kinds of the profile of `condition`. */
  predicate PoolMatches(condition: string, pool: seq<Particle>) {
    && |pool| == ProfileFor(condition).count
    && forall i :: 0 <= i < |pool| ==> pool[i].Kind() in ProfileFor(condition).types
  }

  /** Enough draws, all in `[0, 1)`, to build the pool of `condition`. */
  predicate DrawsFor(condition: string, rnd: seq<real>) {
    UnitDraws(rnd) && |rnd| >= MaxDraws * ProfileFor(condition).count
  }

  /**
   * The construction loop: `count` iterations, each pushing one particle
   * built from the next draws.
   */
  method BuildParticles(cfg: Profile, w: nat, h: nat, rnd: seq<real>) returns (pool: seq<Particle>)
    requires ValidProfile(cfg) && UnitDraws(rnd) && |rnd| >= MaxDraws * cfg.count
    ensures pool == BuildPool(cfg, w, h, rnd, cfg.count)
    ensures |pool| == cfg.count
    ensures forall i :: 0 <= i < |pool| ==> Fits(cfg, w, h, pool[i])
  {
    pool := [];
    var rest := rnd;
    var i := 0;
    while i < cfg.count
      invariant 0 <= i <= cfg.count
      invariant UnitDraws(rest) && |rest| >= MaxDraws * (cfg.count - i)
      invariant pool + BuildPool(cfg, w, h, rest, cfg.count - i) == BuildPool(cfg, w, h, rnd, cfg.count)
    {
      var (p, used) := MakeParticle(cfg, w, h, rest);
      BuildPoolStep(cfg, w, h, rest, cfg.count - i);
      pool := pool + [p];
      rest := rest[used..];
      i := i + 1;
    }
    PoolFits(cfg, w, h, rnd, cfg.count);
  }

  class Animator {
    var attached: bool
    var width: nat
    var height: nat
    var condition: string
    var particles: seq<Particle>
    var lastTimestamp: real

    /** Once a canvas is attached, the pool always belongs to the active condition. */
    ghost predicate Valid()
      reads this
    {
      attached ==> PoolMatches(condition, particles)
    }

    /** The initial module state: no context, no particles, condition Clear. */
    constructor ()
      ensures Valid()
      ensures !attached && width == 0 && height == 0
      ensures condition == DefaultCondition && particles == [] && lastTimestamp == 0.0
    {
      attached := false;
      width, height := 0, 0;
      condition := DefaultCondition;
      particles := [];
      lastTimestamp := 0.0;
    }

    /**
     * Rebuild the pool for `cond` on a `w` x `h` window: the old pool is
     * discarded, never kept or merged.
     */
    method InitParticles(cond: string, w: nat, h: nat, rnd: seq<real>)
      requires DrawsFor(cond, rnd)
      modifies this`condition, this`particles
      ensures condition == EffectiveCondition(cond)
      ensures particles == BuildPool(ProfileFor(condition), w, h, rnd, ProfileFor(condition).count)
      ensures PoolMatches(condition, particles)
      ensures forall i :: 0 <= i < |particles| ==> Fits(ProfileFor(condition), w, h, particles[i])
    {
      EffectiveConditionSameProfile(cond);
      condition := EffectiveCondition(cond);
      particles := BuildParticles(ProfileFor(condition), w, h, rnd);
    }

    /**
     * Attach to the canvas when it exists: take the window size and build
     * the pool for the current condition. Without a canvas nothing changes.
     */
    method Setup(canvasPresent: bool, w: nat, h: nat, rnd: seq<real>)
      requires Valid() && DrawsFor(condition, rnd)
      modifies this`attached, this`width, this`height, this`condition, this`particles
      ensures Valid()
      ensures !canvasPresent ==> unchanged(this)
      ensures canvasPresent ==> attached && width == w && height == h
      ensures canvasPresent ==> condition == EffectiveCondition(old(condition))
      ensures canvasPresent ==> particles == BuildPool(ProfileFor(condition), w, h, rnd, ProfileFor(condition).count)
    {
      if canvasPresent {
        width, height := w, h;
        InitParticles(condition, w, h, rnd);
        attached := true;
      }
    }

    /** The resize handler: resize the canvas, rebuild for the current condition. */
    method Resize(w: nat, h: nat, rnd: seq<real>)
      requires Valid() && DrawsFor(condition, rnd)
      modifies this`width, this`height, this`condition, this`particles
      ensures Valid()
      ensures !old(attached) ==> unchanged(this)
      ensures old(attached) ==> attached && width == w && height == h
      ensures old(attached) ==> condition == EffectiveCondition(old(condition))
      ensures old(attached) ==> particles == BuildPool(ProfileFor(condition), w, h, rnd, ProfileFor(condition).count)
      ensures attached == old(attached) && lastTimestamp == old(lastTimestamp)
    {
      if attached {
        width, height := w, h;
        InitParticles(condition, w, h, rnd);
      }
    }

    /**
     * The handle's `drawWeatherBackground(condition)`. The stub handed out
     * without a canvas does nothing.
     */
    method SetCondition(cond: string, w: nat, h: nat, rnd: seq<real>)
      requires Valid() && DrawsFor(cond, rnd)
      modifies this`condition, this`particles
      ensures Valid()
      ensures !old(attached) ==> unchanged(this)
      ensures old(attached) ==> condition == EffectiveCondition(cond)
      ensures old(attached) ==> particles == BuildPool(ProfileFor(cond), w, h, rnd, ProfileFor(cond).count)
      ensures attached == old(attached) && width == old(width) && height == old(height)
      ensures lastTimestamp == old(lastTimestamp)
    {
      if attached {
        EffectiveConditionSameProfile(cond);
        InitParticles(cond, w, h, rnd);
      }
    }

    /**
     * The update half of one frame: clamp the delta, move and wrap every
     * particle, remember the timestamp. Without a context the frame returns
     * at once. `waves[i]` is the sine term particle `i` uses.
     */
    method Frame(timestamp: real, waves: seq<real>)
      requires Valid() && |waves| == |particles|
      modifies this`particles, this`lastTimestamp
      ensures Valid()
      ensures !attached ==> particles == old(particles) && lastTimestamp == old(lastTimestamp)
      ensures attached ==> lastTimestamp == timestamp && |particles| == |old(particles)|
      ensures attached ==> forall i :: 0 <= i < |particles| ==>
        particles[i] == StepParticle(old(particles)[i], FrameDelta(old(lastTimestamp), timestamp), waves[i], width, height)
      ensures attached ==> forall i :: 0 <= i < |particles| ==> WithinMargin(particles[i], width, height)
    {
      if !attached {
        return;
      }
      var dt := FrameDelta(lastTimestamp, timestamp);
      lastTimestamp := timestamp;
      var i := 0;
      while i < |particles|
        invariant 0 <= i <= |particles| == |old(particles)|
        invariant lastTimestamp == timestamp
        invariant forall j :: 0 <= j < i ==> particles[j] == StepParticle(old(particles)[j], dt, waves[j], width, height)
        invariant forall j :: i <= j < |particles| ==> particles[j] == old(particles)[j]
      {
        particles := particles[i := StepParticle(particles[i], dt, waves[i], width, height)];
        i := i + 1;
      }
    }
  }
}
