/**
 * `AnimatedBackground`: an 800-particle field kept in three flat buffers
 * (position, velocity, colour; three numbers per particle). `init`
 * chooses between the WebGL scene and a canvas fallback; each processed
 * frame moves every position by its velocity plus a small drift, wraps x
 * and y back into a window centred on the origin and turns the field.
 */
module Background {
  import opened Wrappers
  import opened Field

  const ParticleCount: nat := 800
  /** Three buffer slots per particle: particle `i` owns offsets `3i`, `3i+1`, `3i+2`. */
  const BufferLength: nat := 2400

  datatype Rgb = Rgb(r: real, g: real, b: real)

  /** The colour palette of `createParticleField`. */
  const Palette: seq<Rgb> := [
    Rgb(0.0, 0.85, 1.0),
    Rgb(0.7, 0.0, 1.0),
    Rgb(1.0, 0.0, 1.0),
    Rgb(0.0, 1.0, 0.8),
    Rgb(0.5, 0.2, 1.0)
  ]

  /** The seven `Math.random()` results one particle consumes, in the order the script draws them. */
  datatype FieldDraws = FieldDraws(x: real, y: real, z: real, vx: real, vy: real, vz: real, color: real)

  predicate ValidDraws(d: FieldDraws)
  {
    IsRandom(d.x) && IsRandom(d.y) && IsRandom(d.z) && IsRandom(d.vx) && IsRandom(d.vy)
    && IsRandom(d.vz) && IsRandom(d.color)
  }

  /** The orthographic camera's bounds. */
  datatype Camera = Camera(left: real, right: real, top: real, bottom: real)

  datatype Size = Size(width: real, height: real)

  /** The camera bounds for a `width` by `height` window: centred on the origin, spanning the window. */
  function CameraFor(width: real, height: real): (c: Camera)
    ensures c.left == -c.right && c.bottom == -c.top
    ensures c.right - c.left == width && c.top - c.bottom == height
  {
    Camera(-width / 2.0, width / 2.0, height / 2.0, -height / 2.0)
  }

  /** Component `axis` (0, 1, 2) of a colour. */
  function Channel(c: Rgb, axis: nat): real
  {
    if axis == 0 then c.r else if axis == 1 then c.g else c.b
  }

  /** Coordinate `axis` of a particle's starting position. */
  function InitialPosition(d: FieldDraws, axis: nat, width: real, height: real): (v: real)
    requires ValidDraws(d)
    ensures axis == 0 && 0.0 <= width ==> -width / 2.0 <= v <= width / 2.0
    ensures axis == 1 && 0.0 <= height ==> -height / 2.0 <= v <= height / 2.0
    ensures axis >= 2 ==> -50.0 <= v < 50.0
  {
    if axis == 0 then Centered(d.x, width)
    else if axis == 1 then Centered(d.y, height)
    else Scale(d.z, 100.0) - 50.0
  }

  /** Component `axis` of a particle's velocity: slow in the plane, slower in depth. */
  function InitialVelocity(d: FieldDraws, axis: nat): (v: real)
    requires ValidDraws(d)
    ensures axis <= 1 ==> -0.25 <= v < 0.25
    ensures axis >= 2 ==> -0.1 <= v < 0.1
  {
    if axis == 0 then Centered(d.vx, 0.5)
    else if axis == 1 then Centered(d.vy, 0.5)
    else Centered(d.vz, 0.2)
  }

  /** The palette colour a particle draws. */
  function ColorOf(d: FieldDraws): (c: Rgb)
    requires ValidDraws(d)
    ensures c in Palette
  {
    Palette[Pick(d.color, |Palette|)]
  }

  /**
   * The new value at buffer offset `j` in one frame of `updateParticles`,
   * from its old value `p` and its velocity `v`. `drift(j)` is the sine
   * (offset of an x) or cosine (offset of a y) term the script computes
   * from the clock and the particle's x offset.
   */
  function Moved(j: nat, p: real, v: real, width: real, height: real, drift: nat -> real): real
  {
    if j % 3 == 0 then Wrap(p + v + drift(j) * 0.05, -width / 2.0, width / 2.0)
    else if j % 3 == 1 then Wrap(p + v + drift(j) * 0.05, -height / 2.0, height / 2.0)
    else p + v
  }

  /**
   * After a frame every x lies in [-width/2, width/2] and every y in
   * [-height/2, height/2]; a z only accumulates its velocity, unwrapped.
   */
  lemma MovedInField(j: nat, p: real, v: real, width: real, height: real, drift: nat -> real)
    ensures j % 3 == 0 && 0.0 <= width ==>
      -width / 2.0 <= Moved(j, p, v, width, height, drift) <= width / 2.0
    ensures j % 3 == 1 && 0.0 <= height ==>
      -height / 2.0 <= Moved(j, p, v, width, height, drift) <= height / 2.0
    ensures j % 3 == 2 ==> Moved(j, p, v, width, height, drift) == p + v
  {
  }

  class AnimatedBackground {
    const positions: array<real>
    const velocities: array<real>
    const colors: array<real>
    var useWebGL: bool
    var isAnimating: bool
    /** `this.particles` is set: the field was created. */
    var hasParticles: bool
    var rotationX: real
    var rotationY: real
    var camera: Option<Camera>
    var rendererSize: Option<Size>
    /** The fallback canvas was appended to the container. */
    var hasFallbackCanvas: bool
    /** `animate` was called once, so frames keep coming. */
    var loopStarted: bool

    /** Three distinct buffers of 2400 slots. */
    predicate Buffers()
      reads this
    {
      positions.Length == BufferLength && velocities.Length == BufferLength && colors.Length == BufferLength
      && positions != velocities && positions != colors && velocities != colors
    }

    /** The buffers as `createParticleField` fills them from `draws`. */
    predicate Laid(width: real, height: real, draws: seq<FieldDraws>)
      requires Buffers() && |draws| == ParticleCount && forall i :: 0 <= i < |draws| ==> ValidDraws(draws[i])
      reads this, velocities, colors
    {
      forall j :: 0 <= j < BufferLength ==>
        velocities[j] == InitialVelocity(draws[j / 3], j % 3)
        && colors[j] == Channel(ColorOf(draws[j / 3]), j % 3)
    }

    /** The state the constructor sets before calling `init`. */
    predicate Unstarted()
      reads this
    {
      useWebGL && isAnimating && !hasParticles && rotationX == 0.0 && rotationY == 0.0
      && camera.None? && rendererSize.None? && !hasFallbackCanvas && !loopStarted
    }

    /**
     * `new AnimatedBackground()`: the fields get their defaults and `init`
     * runs (see `Init`).
     */
    constructor (threeLoaded: bool, containerPresent: bool, rendererThrows: bool,
                 width: real, height: real, draws: seq<FieldDraws>, drift: nat -> real)
      requires |draws| == ParticleCount && forall i :: 0 <= i < |draws| ==> ValidDraws(draws[i])
      ensures Buffers()
      ensures useWebGL <==> threeLoaded && !(containerPresent && rendererThrows)
      ensures hasParticles <==> threeLoaded && containerPresent && !rendererThrows
      ensures loopStarted == hasParticles
      ensures hasFallbackCanvas <==> containerPresent && !useWebGL
    {
      positions := new real[BufferLength](_ => 0.0);
      velocities := new real[BufferLength](_ => 0.0);
      colors := new real[BufferLength](_ => 0.0);
      useWebGL := true;
      isAnimating := true;
      hasParticles := false;
      rotationX := 0.0;
      rotationY := 0.0;
      camera := None;
      rendererSize := None;
      hasFallbackCanvas := false;
      loopStarted := false;
      new;
      Init(threeLoaded, containerPresent, rendererThrows, width, height, draws, drift);
    }

    /**
     * `init()`. Without THREE the canvas fallback is used. With THREE,
     * `initWebGL` returns at once when the container is missing (leaving
     * `useWebGL` set and starting nothing); when creating the renderer
     * throws, the camera already exists and the fallback is used instead;
     * otherwise the field is created and the first frame of `animate` runs.
     * The fallback appends its canvas only when the container exists and
     * never starts the frame loop.
     */
    method Init(threeLoaded: bool, containerPresent: bool, rendererThrows: bool,
                width: real, height: real, draws: seq<FieldDraws>, drift: nat -> real)
      requires Buffers() && Unstarted()
      requires |draws| == ParticleCount && forall i :: 0 <= i < |draws| ==> ValidDraws(draws[i])
      modifies this, positions, velocities, colors
      ensures Buffers()
      ensures useWebGL <==> threeLoaded && !(containerPresent && rendererThrows)
      ensures hasParticles <==> threeLoaded && containerPresent && !rendererThrows
      ensures loopStarted == hasParticles && isAnimating
      ensures hasFallbackCanvas <==> containerPresent && !useWebGL
      ensures camera == if threeLoaded && containerPresent then Some(CameraFor(width, height)) else None
      ensures rendererSize == if hasParticles then Some(Size(width, height)) else None
      ensures hasParticles ==> Laid(width, height, draws)
      ensures hasParticles ==> rotationX == 0.0001 && rotationY == 0.00015
      ensures hasParticles ==> forall j :: 0 <= j < BufferLength ==>
        positions[j] == Moved(j, InitialPosition(draws[j / 3], j % 3, width, height), velocities[j],
                              width, height, drift)
    {
      if !threeLoaded {
        useWebGL := false;
        InitCanvasFallback(containerPresent);
        return;
      }
      if !containerPresent {
        return;
      }
      camera := Some(CameraFor(width, height));
      if rendererThrows {
        useWebGL := false;
        InitCanvasFallback(containerPresent);
        return;
      }
      rendererSize := Some(Size(width, height));
      CreateParticleField(width, height, draws);
      loopStarted := true;
      Animate(width, height, drift);
    }

    /** `initCanvasFallback()`: the canvas is appended only to an existing container. */
    method InitCanvasFallback(containerPresent: bool)
      modifies this`hasFallbackCanvas
      ensures hasFallbackCanvas == (old(hasFallbackCanvas) || containerPresent)
    {
      if !containerPresent {
        return;
      }
      hasFallbackCanvas := true;
    }

    /**
     * `createParticleField()`: particle `i` gets its position, velocity and
     * colour at offsets `3i..3i+2` of the three buffers.
     */
    method CreateParticleField(width: real, height: real, draws: seq<FieldDraws>)
      requires Buffers()
      requires |draws| == ParticleCount && forall i :: 0 <= i < |draws| ==> ValidDraws(draws[i])
      modifies this`hasParticles, positions, velocities, colors
      ensures hasParticles
      ensures Laid(width, height, draws)
      ensures forall j :: 0 <= j < BufferLength ==> positions[j] == InitialPosition(draws[j / 3], j % 3, width, height)
    {
      var i := 0;
      while i < ParticleCount
        invariant 0 <= i <= ParticleCount
        invariant forall j :: 0 <= j < 3 * i ==>
          positions[j] == InitialPosition(draws[j / 3], j % 3, width, height)
          && velocities[j] == InitialVelocity(draws[j / 3], j % 3)
          && colors[j] == Channel(ColorOf(draws[j / 3]), j % 3)
      {
        var i3 := i * 3;
        var d := draws[i];
        positions[i3] := InitialPosition(d, 0, width, height);
        positions[i3 + 1] := InitialPosition(d, 1, width, height);
        positions[i3 + 2] := InitialPosition(d, 2, width, height);
        velocities[i3] := InitialVelocity(d, 0);
        velocities[i3 + 1] := InitialVelocity(d, 1);
        velocities[i3 + 2] := InitialVelocity(d, 2);
        var color := ColorOf(d);
        colors[i3] := color.r;
        colors[i3 + 1] := color.g;
        colors[i3 + 2] := color.b;
        assert i3 / 3 == i && (i3 + 1) / 3 == i && (i3 + 2) / 3 == i;
        i := i + 1;
      }
      hasParticles := true;
    }

    /**
     * `updateParticles()`: every offset takes one `Moved` step, in place;
     * velocities and colours are only read. The field then turns a little
     * about x and y.
     */
    method UpdateParticles(width: real, height: real, drift: nat -> real)
      requires Buffers()
      modifies positions, this`rotationX, this`rotationY
      ensures forall j :: 0 <= j < BufferLength ==>
        positions[j] == Moved(j, old(positions[j]), velocities[j], width, height, drift)
      ensures rotationX == old(rotationX) + 0.0001 && rotationY == old(rotationY) + 0.00015
      ensures forall j :: 0 <= j < BufferLength && j % 3 == 0 && 0.0 <= width ==>
        -width / 2.0 <= positions[j] <= width / 2.0
      ensures forall j :: 0 <= j < BufferLength && j % 3 == 1 && 0.0 <= height ==>
        -height / 2.0 <= positions[j] <= height / 2.0
    {
      var i := 0;
      while i < positions.Length
        invariant 0 <= i <= positions.Length && i % 3 == 0
        invariant forall j :: 0 <= j < i ==>
          positions[j] == Moved(j, old(positions[j]), velocities[j], width, height, drift)
        invariant forall j :: i <= j < positions.Length ==> positions[j] == old(positions[j])
        invariant rotationX == old(rotationX) && rotationY == old(rotationY)
      {
        var x := Wrap(positions[i] + velocities[i] + drift(i) * 0.05, -width / 2.0, width / 2.0);
        var y := Wrap(positions[i + 1] + velocities[i + 1] + drift(i + 1) * 0.05, -height / 2.0, height / 2.0);
        positions[i] := x;
        positions[i + 1] := y;
        positions[i + 2] := positions[i + 2] + velocities[i + 2];
        i := i + 3;
      }
      rotationX := rotationX + 0.0001;
      rotationY := rotationY + 0.00015;
      forall j | 0 <= j < BufferLength
        ensures j % 3 == 0 && 0.0 <= width ==> -width / 2.0 <= positions[j] <= width / 2.0
        ensures j % 3 == 1 && 0.0 <= height ==> -height / 2.0 <= positions[j] <= height / 2.0
      {
        MovedInField(j, old(positions[j]), velocities[j], width, height, drift);
      }
    }

    /**
     * One frame of `animate`: while paused nothing changes; with the field
     * in place it is updated (and rendered); otherwise the fallback is
     * painted, which changes no state here. The next frame is always requested.
     */
    method Animate(width: real, height: real, drift: nat -> real)
      requires Buffers()
      modifies positions, this`rotationX, this`rotationY
      ensures var moves := isAnimating && useWebGL && hasParticles;
        (!moves ==> positions[..] == old(positions[..]) && rotationX == old(rotationX) && rotationY == old(rotationY))
        && (moves ==> rotationX == old(rotationX) + 0.0001 && rotationY == old(rotationY) + 0.00015)
        && (moves ==> forall j :: 0 <= j < BufferLength ==>
              positions[j] == Moved(j, old(positions[j]), velocities[j], width, height, drift))
    {
      if !isAnimating {
        return;
      }
      if useWebGL && hasParticles {
        UpdateParticles(width, height, drift);
      }
    }

    /**
     * `onWindowResize()`: nothing without WebGL; otherwise the camera and
     * the renderer take the new window size. The buffers are untouched.
     */
    method OnWindowResize(width: real, height: real)
      requires useWebGL ==> camera.Some? && rendererSize.Some?
      modifies this`camera, this`rendererSize
      ensures !useWebGL ==> camera == old(camera) && rendererSize == old(rendererSize)
      ensures useWebGL ==> camera == Some(CameraFor(width, height)) && rendererSize == Some(Size(width, height))
    {
      if !useWebGL {
        return;
      }
      camera := Some(CameraFor(width, height));
      rendererSize := Some(Size(width, height));
    }

    /** The window's `blur` listener. */
    method OnBlur()
      modifies this`isAnimating
      ensures !isAnimating
    {
      isAnimating := false;
    }

    /** The window's `focus` listener. */
    method OnFocus()
      modifies this`isAnimating
      ensures isAnimating
    {
      isAnimating := true;
    }
  }
}
