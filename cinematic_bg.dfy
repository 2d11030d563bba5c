/**
 * `CinematicBackground`: 150 drifting particles on a full-window canvas.
 * Each processed frame advances a frame counter and moves every particle
 * by its velocity plus a small sine drift, wraps it back onto the window
 * and recomputes its opacity; a blurred window pauses the frames.
 */
module Cinematic {
  import opened Field

  /** A particle object of `this.particles`. */
  datatype Particle = Particle(x: real, y: real, vx: real, vy: real, size: real, opacity: real, color: string)

  /** The seven `Math.random()` results one particle consumes, in the order the script draws them. */
  datatype ParticleDraws = ParticleDraws(x: real, y: real, vx: real, vy: real, size: real, opacity: real, color: real)

  predicate ValidDraws(d: ParticleDraws)
  {
    IsRandom(d.x) && IsRandom(d.y) && IsRandom(d.vx) && IsRandom(d.vy)
    && IsRandom(d.size) && IsRandom(d.opacity) && IsRandom(d.color)
  }

  /** Every sine value lies in [-1, 1]. */
  ghost predicate IsSine(sin: real -> real)
  {
    forall t :: -1.0 <= sin(t) <= 1.0
  }

  const ParticleCount: nat := 150

  /** The neon colours `getRandomColor` chooses from. */
  const Palette: seq<string> := [
    "rgba(0, 217, 255, 0.3)",
    "rgba(179, 0, 255, 0.3)",
    "rgba(255, 0, 255, 0.3)",
    "rgba(0, 255, 204, 0.3)"
  ]

  /** `getRandomColor()` */
  function RandomColor(r: real): (c: string)
    requires IsRandom(r)
    ensures c in Palette
  {
    Palette[Pick(r, |Palette|)]
  }

  /** The particle `setupParticles` pushes for a window of `width` by `height`. */
  function NewParticle(d: ParticleDraws, width: real, height: real): (p: Particle)
    requires ValidDraws(d)
    ensures 0.0 <= width ==> 0.0 <= p.x <= width
    ensures 0.0 <= height ==> 0.0 <= p.y <= height
    ensures -0.15 <= p.vx < 0.15 && -0.15 <= p.vy < 0.15
    ensures 1.0 <= p.size < 3.0
    ensures 0.2 <= p.opacity < 0.7
    ensures p.color in Palette
  {
    Particle(Scale(d.x, width), Scale(d.y, height), Centered(d.vx, 0.3), Centered(d.vy, 0.3),
             Scale(d.size, 2.0) + 1.0, Scale(d.opacity, 0.5) + 0.2, RandomColor(d.color))
  }

  /** The particle lies on the window. */
  predicate InView(p: Particle, width: real, height: real)
  {
    0.0 <= p.x <= width && 0.0 <= p.y <= height
  }

  /**
   * One particle's share of `update()` in the frame whose counter, after
   * the increment, is `time`; `sin` stands for `Math.sin`.
   */
  function Step(p: Particle, width: real, height: real, time: int, sin: real -> real): Particle
  {
    var x := p.x + p.vx;
    var y := p.y + p.vy + sin(time as real * 0.01 + x * 0.01) * 0.1;
    var wx := Wrap(x, 0.0, width);
    var wy := Wrap(y, 0.0, height);
    p.(x := wx, y := wy, opacity := 0.3 + sin(time as real * 0.02 + wx * 0.01) * 0.2)
  }

  /**
   * A step keeps velocity, size and colour, applies the wrap rule to the
   * moved position, so the particle ends on the window, and puts the
   * opacity in [0.1, 0.5].
   */
  lemma StepProperties(p: Particle, width: real, height: real, time: int, sin: real -> real)
    ensures var q := Step(p, width, height, time, sin);
      q.vx == p.vx && q.vy == p.vy && q.size == p.size && q.color == p.color
    ensures 0.0 <= width && 0.0 <= height ==> InView(Step(p, width, height, time, sin), width, height)
    ensures 0.0 <= p.x + p.vx <= width ==> Step(p, width, height, time, sin).x == p.x + p.vx
    ensures p.x + p.vx > width ==> Step(p, width, height, time, sin).x == 0.0
    ensures p.x + p.vx < 0.0 && 0.0 <= width ==> Step(p, width, height, time, sin).x == width
    ensures IsSine(sin) ==> 0.1 <= Step(p, width, height, time, sin).opacity <= 0.5
  {
  }

  /** A particle after `n` processed frames following the one whose counter was `time`. */
  function Frames(p: Particle, width: real, height: real, time: int, n: nat, sin: real -> real): Particle
  {
    if n == 0 then p else Step(Frames(p, width, height, time, n - 1, sin), width, height, time + n, sin)
  }

  /**
   * However many frames run, a particle keeps its velocity, size and
   * colour, and after the first one it stays on the window with its
   * opacity in [0.1, 0.5].
   */
  lemma {:induction false} FramesKeepParticle(p: Particle, width: real, height: real, time: int, n: nat,
                                              sin: real -> real)
    ensures var q := Frames(p, width, height, time, n, sin);
      q.vx == p.vx && q.vy == p.vy && q.size == p.size && q.color == p.color
    ensures n > 0 && 0.0 <= width && 0.0 <= height ==> InView(Frames(p, width, height, time, n, sin), width, height)
    ensures n > 0 && IsSine(sin) ==> 0.1 <= Frames(p, width, height, time, n, sin).opacity <= 0.5
  {
    if n > 0 {
      FramesKeepParticle(p, width, height, time, n - 1, sin);
      StepProperties(Frames(p, width, height, time, n - 1, sin), width, height, time + n, sin);
    }
  }

  class CinematicBackground {
    const particles: array<Particle>
    var time: int
    var isAnimating: bool

    /**
     * `new CinematicBackground()` on a `width` by `height` window: 150
     * particles are set up, then `init` runs the first frame of `animate`
     * at once.
     */
    constructor (draws: seq<ParticleDraws>, width: real, height: real, sin: real -> real)
      requires |draws| == ParticleCount && forall i :: 0 <= i < |draws| ==> ValidDraws(draws[i])
      ensures particles.Length == ParticleCount && fresh(particles)
      ensures time == 1 && isAnimating
      ensures forall i :: 0 <= i < ParticleCount ==>
        particles[i] == Step(NewParticle(draws[i], width, height), width, height, 1, sin)
    {
      particles := new Particle[ParticleCount](i requires 0 <= i < ParticleCount => NewParticle(draws[i], width, height));
      time := 0;
      isAnimating := true;
      new;
      Animate(width, height, sin);
    }

    /** `update()`: the counter advances by one and every particle takes one step, in place. */
    method Update(width: real, height: real, sin: real -> real)
      modifies this, particles
      ensures time == old(time) + 1 && isAnimating == old(isAnimating)
      ensures forall i :: 0 <= i < particles.Length ==>
        particles[i] == Step(old(particles[i]), width, height, time, sin)
      ensures 0.0 <= width && 0.0 <= height ==>
        forall i :: 0 <= i < particles.Length ==> InView(particles[i], width, height)
    {
      time := time + 1;
      var t := time;
      var i := 0;
      while i < particles.Length
        invariant 0 <= i <= particles.Length
        invariant time == t == old(time) + 1 && isAnimating == old(isAnimating)
        invariant forall j :: 0 <= j < i ==> particles[j] == Step(old(particles[j]), width, height, t, sin)
        invariant forall j :: i <= j < particles.Length ==> particles[j] == old(particles[j])
      {
        var next := Step(particles[i], width, height, t, sin);
        particles[i] := next;
        i := i + 1;
      }
      forall j | 0 <= j < particles.Length
        ensures 0.0 <= width && 0.0 <= height ==> InView(particles[j], width, height)
      {
        StepProperties(old(particles[j]), width, height, t, sin);
      }
    }

    /**
     * One frame of `animate`: while paused nothing changes; otherwise the
     * particles are updated (and drawn). The next frame is always requested.
     */
    method Animate(width: real, height: real, sin: real -> real)
      modifies this, particles
      ensures isAnimating == old(isAnimating)
      ensures !isAnimating ==> time == old(time) && particles[..] == old(particles[..])
      ensures isAnimating ==> time == old(time) + 1
      ensures isAnimating ==> forall i :: 0 <= i < particles.Length ==>
        particles[i] == Step(old(particles[i]), width, height, time, sin)
    {
      if isAnimating {
        Update(width, height, sin);
      }
    }

    /** The window's `blur` listener. */
    method OnBlur()
      modifies this
      ensures !isAnimating && time == old(time)
    {
      isAnimating := false;
    }

    /** The window's `focus` listener. */
    method OnFocus()
      modifies this
      ensures isAnimating && time == old(time)
    {
      isAnimating := true;
    }
  }
}
