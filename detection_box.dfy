/**
 * The draggable detection box of src/components/DetectionResult.tsx: pointer
 * normalisation and hit test, dragging with single-sample velocity, release
 * with momentum, and the eased transition the render loop draws.
 *
 * The React refs and state of the component are the fields of one
 * `BoxController`. `requestAnimationFrame` becomes explicit calls of
 * `AnimationFrame` (the momentum callbacks) and `RenderFrame` (the draw
 * loop); `Date.now()` becomes a `now` parameter.
 */
module DetectionBox {
  import opened Wrappers
  import opened Records
  import opened Confidence

  const AnimationDuration: int := 300
  const MomentumFactor: real := 0.92
  const VelocityScale: real := 0.15
  /** Momentum continues while a velocity component exceeds this, in screen pixels. */
  const StopSpeed: real := 0.01
  /** A fresh HTML canvas is 300 x 150 pixels until the image load resizes it. */
  const DefaultCanvasWidth: nat := 300
  const DefaultCanvasHeight: nat := 150
  /** The box used when the detection result carries no position. */
  const DefaultPosition: Rect := Rect(0.2, 0.3, 0.3, 0.2)

  datatype Point = Point(x: real, y: real)

  /** The canvas's `getBoundingClientRect()`: where it is displayed, in screen pixels. */
  datatype ClientRect = ClientRect(left: real, top: real, width: real, height: real)

  /**
   * One pending `applyMomentum` callback. The closure was created at release
   * and keeps the box position and image size of that moment.
   */
  datatype Momentum = Momentum(base: Rect, imageWidth: nat, imageHeight: nat)

  /** What one tick of the draw loop shows: the displayed box and its confidence label. */
  datatype Frame = Frame(shown: Rect, confidence: Score)

  function MaxReal(a: real, b: real): real { if a >= b then a else b }

  /** `Math.max(0, Math.min(1 - extent, v))`: keeps one box edge inside the image. */
  function ClampAxis(v: real, extent: real): (c: real)
    ensures 0.0 <= extent <= 1.0 ==> 0.0 <= c <= 1.0 - extent
    ensures 0.0 <= v <= 1.0 - extent ==> c == v
    ensures 0.0 <= extent <= 1.0 && v >= 1.0 - extent ==> c == 1.0 - extent
    ensures 0.0 <= extent <= 1.0 && v <= 0.0 ==> c == 0.0
  {
    MaxReal(0.0, MinReal(1.0 - extent, v))
  }

  /**
   * `((client - origin) * (canvasPixels / displayed)) / canvasPixels`: a
   * pointer coordinate as a fraction of the canvas. The canvas scale cancels.
   */
  function Normalize(client: real, origin: real, canvasPixels: nat, displayed: real): (n: real)
    requires canvasPixels > 0 && displayed > 0.0
    ensures n == (client - origin) / displayed
  {
    ((client - origin) * (canvasPixels as real / displayed)) / canvasPixels as real
  }

  /** A box inside the unit square with a positive size. */
  predicate Normalised(r: Rect)
  {
    0.0 < r.width <= 1.0 && 0.0 < r.height <= 1.0 &&
    0.0 <= r.x <= 1.0 - r.width && 0.0 <= r.y <= 1.0 - r.height
  }

  predicate SameSize(a: Rect, b: Rect)
  {
    a.width == b.width && a.height == b.height
  }

  /** The hit test of `handleMouseDown`: the point lies in the closed box. */
  predicate Hit(r: Rect, p: Point)
  {
    r.x <= p.x <= r.x + r.width && r.y <= p.y <= r.y + r.height
  }

  /** Linear interpolation from `start` (at 0) to `end` (at 1). */
  function Lerp(start: real, end: real, t: real): (v: real)
    ensures t == 0.0 ==> v == start
    ensures t == 1.0 ==> v == end
  {
    start * (1.0 - t) + end * t
  }

  /** For a parameter in [0, 1] the interpolated value lies between the endpoints. */
  lemma LerpBetween(start: real, end: real, t: real)
    requires 0.0 <= t <= 1.0
    ensures MinReal(start, end) <= Lerp(start, end, t) <= MaxReal(start, end)
  {
    var v := Lerp(start, end, t);
    assert v == start + (end - start) * t;
    if start <= end {
      NonNegativeProduct(end - start, t);
      NonNegativeProduct(end - start, 1.0 - t);
      assert end - v == (end - start) * (1.0 - t);
    } else {
      NonNegativeProduct(start - end, t);
      NonNegativeProduct(start - end, 1.0 - t);
      assert v - end == (start - end) * (1.0 - t);
    }
  }

  lemma NonNegativeProduct(a: real, b: real)
    requires a >= 0.0 && b >= 0.0
    ensures a * b >= 0.0
  {
  }

  /**
   * `easeOutElastic`. The curve `2^(-10p) * sin((10p - 0.75) * 2pi/3) + 1`
   * is transcendental and is supplied by the host as `elastic`; only the two
   * endpoints the source spells out are fixed here.
   */
  function EaseOutElastic(p: real, elastic: real -> real): (e: real)
    ensures p == 0.0 ==> e == 0.0
    ensures p == 1.0 ==> e == 1.0
  {
    if p == 0.0 then 0.0 else if p == 1.0 then 1.0 else elastic(p)
  }

  /** `Math.min(elapsed / 300, 1)`. */
  function Progress(elapsed: int): (p: real)
    ensures p <= 1.0
    ensures elapsed >= 0 ==> p >= 0.0
    ensures p == 1.0 <==> elapsed >= AnimationDuration
  {
    MinReal(elapsed as real / AnimationDuration as real, 1.0)
  }

  /** Momentum goes on while either velocity component exceeds the stop speed. */
  predicate Moving(v: Point)
  {
    Abs(v.x) > StopSpeed || Abs(v.y) > StopSpeed
  }

  function Decay(v: Point): Point
  {
    Point(v.x * MomentumFactor, v.y * MomentumFactor)
  }

  /** An upper bound on the decays a speed of `s` can still take while above the stop speed. */
  function Ticks(s: real): nat
    requires s >= 0.0
  {
    (s * 1250.0).Floor
  }

  /** The termination measure of momentum: both components' tick bounds. */
  function Steps(v: Point): nat
  {
    Ticks(Abs(v.x)) + Ticks(Abs(v.y))
  }

  lemma TicksDecay(s: real)
    requires s >= 0.0
    ensures Ticks(s * MomentumFactor) <= Ticks(s)
    ensures s > StopSpeed ==> Ticks(s * MomentumFactor) < Ticks(s)
  {
  }

  /** A decay never raises the measure, and lowers it while moving. */
  lemma DecayLowersSteps(v: Point)
    ensures Steps(Decay(v)) <= Steps(v)
    ensures Moving(v) ==> Steps(Decay(v)) < Steps(v)
  {
    assert Abs(v.x * MomentumFactor) == Abs(v.x) * MomentumFactor;
    assert Abs(v.y * MomentumFactor) == Abs(v.y) * MomentumFactor;
    TicksDecay(Abs(v.x));
    TicksDecay(Abs(v.y));
  }

  function Pow(b: real, n: nat): real
  {
    if n == 0 then 1.0 else b * Pow(b, n - 1)
  }

  /** A velocity component after `n` momentum ticks. */
  function DecayTimes(v: real, n: nat): real
    decreases n
  {
    if n == 0 then v else DecayTimes(v * MomentumFactor, n - 1)
  }

  /** After n ticks a velocity component is v0 * 0.92^n. */
  lemma {:induction false} DecayTimesIsPower(v: real, n: nat)
    ensures DecayTimes(v, n) == v * Pow(MomentumFactor, n)
    decreases n
  {
    if n > 0 {
      DecayTimesIsPower(v * MomentumFactor, n - 1);
      assert v * MomentumFactor * Pow(MomentumFactor, n - 1) == v * (MomentumFactor * Pow(MomentumFactor, n - 1));
    }
  }

  lemma {:induction false} StaysBelowStop(v: real, n: nat)
    requires Abs(v) <= StopSpeed
    ensures Abs(DecayTimes(v, n)) <= StopSpeed
    decreases n
  {
    if n > 0 {
      StaysBelowStop(v * MomentumFactor, n - 1);
    }
  }

  /** A velocity component is at or below the stop speed after Ticks(|v|) decays. */
  lemma {:induction false} DecaySettles(v: real, n: nat)
    requires n >= Ticks(Abs(v))
    ensures Abs(DecayTimes(v, n)) <= StopSpeed
    decreases n
  {
    if Abs(v) <= StopSpeed {
      StaysBelowStop(v, n);
    } else {
      assert Abs(v * MomentumFactor) == Abs(v) * MomentumFactor;
      TicksDecay(Abs(v));
      DecaySettles(v * MomentumFactor, n - 1);
    }
  }

  lemma {:induction false} PowNonNegative(b: real, n: nat)
    requires b >= 0.0
    ensures Pow(b, n) >= 0.0
    decreases n
  {
    if n > 0 {
      PowNonNegative(b, n - 1);
    }
  }

  /** After `n` decays of `v0` neither component would be above the stop speed. */
  predicate SettledWithin(v0: Point, n: nat)
  {
    Abs(v0.x) * Pow(MomentumFactor, n) <= StopSpeed && Abs(v0.y) * Pow(MomentumFactor, n) <= StopSpeed
  }

  /**
   * The closed form meets the tick bound: once `n` reaches both components'
   * tick counts, 0.92^n has brought the release velocity to the stop speed.
   */
  lemma SettledAfterTicks(v0: Point, n: nat)
    requires n >= Ticks(Abs(v0.x)) && n >= Ticks(Abs(v0.y))
    ensures SettledWithin(v0, n)
  {
    var p := Pow(MomentumFactor, n);
    PowNonNegative(MomentumFactor, n);
    DecaySettles(v0.x, n);
    DecayTimesIsPower(v0.x, n);
    AbsScale(v0.x, p);
    assert Abs(v0.x) * p <= StopSpeed;
    DecaySettles(v0.y, n);
    DecayTimesIsPower(v0.y, n);
    AbsScale(v0.y, p);
  }

  lemma AbsScale(a: real, p: real)
    requires p >= 0.0
    ensures Abs(a * p) == Abs(a) * p
  {
    if a < 0.0 {
      NonNegativeProduct(-a, p);
      assert -a * p == -(a * p);
    } else {
      NonNegativeProduct(a, p);
    }
  }

  /** Both components of `v` are within `f` decays of those of `v0`. */
  predicate PowerBound(v0: Point, v: Point, f: nat)
  {
    Abs(v.x) <= Abs(v0.x) * Pow(MomentumFactor, f) && Abs(v.y) <= Abs(v0.y) * Pow(MomentumFactor, f)
  }

  /** One more decay keeps the closed-form bound one power further. */
  lemma PowerBoundStep(v0: Point, v: Point, w: Point, f: nat)
    requires PowerBound(v0, v, f)
    requires Abs(w.x) <= Abs(v.x) * MomentumFactor && Abs(w.y) <= Abs(v.y) * MomentumFactor
    ensures PowerBound(v0, w, f + 1)
  {
    assert Abs(v0.x) * Pow(MomentumFactor, f) * MomentumFactor == Abs(v0.x) * Pow(MomentumFactor, f + 1);
    assert Abs(v0.y) * Pow(MomentumFactor, f) * MomentumFactor == Abs(v0.y) * Pow(MomentumFactor, f + 1);
  }

  /** Where a momentum tick puts the box: the captured position plus velocity / canvas size, clamped. */
  function MomentumTarget(m: Momentum, v: Point, canvasWidth: nat, canvasHeight: nat): (r: Rect)
    requires canvasWidth > 0 && canvasHeight > 0
    ensures SameSize(r, m.base)
    ensures Normalised(m.base) ==> Normalised(r)
  {
    Rect(ClampAxis(m.base.x + v.x / canvasWidth as real, m.base.width),
         ClampAxis(m.base.y + v.y / canvasHeight as real, m.base.height),
         m.base.width, m.base.height)
  }

  /** The state the momentum callbacks read and write. */
  datatype Motion = Motion(position: Rect, velocity: Point, updates: seq<PositionUpdate>, rescheduled: seq<Momentum>)

  /** One `applyMomentum` callback. */
  function ApplyMomentum(m: Momentum, dragging: bool, canvasWidth: nat, canvasHeight: nat, s: Motion): (t: Motion)
    requires canvasWidth > 0 && canvasHeight > 0
    ensures dragging || !Moving(s.velocity) ==> t == s
    ensures !dragging && Moving(s.velocity) ==>
      && SameSize(t.position, m.base)
      && (Normalised(m.base) ==> Normalised(t.position))
      && t.velocity == Decay(s.velocity)
      && t.updates == s.updates + [PositionUpdate(t.position, CalculateConfidence(t.position, m.imageWidth, m.imageHeight))]
      && t.rescheduled == s.rescheduled + [m]
  {
    if !dragging && Moving(s.velocity) then
      var r := MomentumTarget(m, s.velocity, canvasWidth, canvasHeight);
      Motion(r, Decay(s.velocity),
             s.updates + [PositionUpdate(r, CalculateConfidence(r, m.imageWidth, m.imageHeight))],
             s.rescheduled + [m])
    else
      s
  }

  /** All momentum callbacks of one animation frame, in the order they were requested. */
  function RunFrame(cs: seq<Momentum>, dragging: bool, canvasWidth: nat, canvasHeight: nat, s: Motion): Motion
    requires canvasWidth > 0 && canvasHeight > 0
    decreases |cs|
  {
    if cs == [] then s
    else RunFrame(cs[1..], dragging, canvasWidth, canvasHeight, ApplyMomentum(cs[0], dragging, canvasWidth, canvasHeight, s))
  }

  /**
   * A frame only appends: to the reported updates and to the rescheduled
   * callbacks, one of each per callback that moved the box, and at most one
   * per pending callback.
   */
  lemma {:induction false} RunFrameExtends(cs: seq<Momentum>, dragging: bool, canvasWidth: nat, canvasHeight: nat, s: Motion)
    requires canvasWidth > 0 && canvasHeight > 0
    ensures var t := RunFrame(cs, dragging, canvasWidth, canvasHeight, s);
      && s.updates <= t.updates && s.rescheduled <= t.rescheduled
      && |t.rescheduled| <= |s.rescheduled| + |cs|
      && |t.updates| - |s.updates| == |t.rescheduled| - |s.rescheduled|
    decreases |cs|
  {
    if cs != [] {
      RunFrameExtends(cs[1..], dragging, canvasWidth, canvasHeight, ApplyMomentum(cs[0], dragging, canvasWidth, canvasHeight, s));
    }
  }

  /**
   * A frame either runs no callback (and then the state is untouched, and
   * a non-empty frame proves momentum is over), or decays the velocity and
   * strictly lowers its measure.
   */
  lemma {:induction false} RunFrameProgress(cs: seq<Momentum>, dragging: bool, canvasWidth: nat, canvasHeight: nat, s: Motion)
    requires canvasWidth > 0 && canvasHeight > 0
    ensures var t := RunFrame(cs, dragging, canvasWidth, canvasHeight, s);
      && |t.rescheduled| >= |s.rescheduled|
      && Steps(t.velocity) <= Steps(s.velocity)
      && (|t.rescheduled| == |s.rescheduled| ==> t == s && (cs != [] ==> dragging || !Moving(s.velocity)))
      && (|t.rescheduled| > |s.rescheduled| ==> Steps(t.velocity) < Steps(s.velocity))
    decreases |cs|
  {
    if cs != [] {
      var s1 := ApplyMomentum(cs[0], dragging, canvasWidth, canvasHeight, s);
      RunFrameProgress(cs[1..], dragging, canvasWidth, canvasHeight, s1);
      if s1 != s {
        DecayLowersSteps(s.velocity);
      }
    }
  }

  /**
   * A frame never speeds the box up; a frame that asks for another one has
   * decayed each velocity component at least once; and a frame that starts
   * below the stop speed changes nothing.
   */
  lemma {:induction false} RunFrameDecay(cs: seq<Momentum>, dragging: bool, canvasWidth: nat, canvasHeight: nat, s: Motion)
    requires canvasWidth > 0 && canvasHeight > 0
    ensures var t := RunFrame(cs, dragging, canvasWidth, canvasHeight, s);
      && Abs(t.velocity.x) <= Abs(s.velocity.x) && Abs(t.velocity.y) <= Abs(s.velocity.y)
      && (|t.rescheduled| > |s.rescheduled| ==> Abs(t.velocity.x) <= Abs(s.velocity.x) * MomentumFactor)
      && (|t.rescheduled| > |s.rescheduled| ==> Abs(t.velocity.y) <= Abs(s.velocity.y) * MomentumFactor)
      && (!Moving(s.velocity) ==> t == s)
    decreases |cs|
  {
    if cs != [] {
      var s1 := ApplyMomentum(cs[0], dragging, canvasWidth, canvasHeight, s);
      RunFrameDecay(cs[1..], dragging, canvasWidth, canvasHeight, s1);
      if s1 != s {
        assert Abs(s.velocity.x * MomentumFactor) == Abs(s.velocity.x) * MomentumFactor;
        assert Abs(s.velocity.y * MomentumFactor) == Abs(s.velocity.y) * MomentumFactor;
      }
    }
  }

  /**
   * What `frames` animation frames after a release with velocity `v0` have
   * kept: momentum only stops once the box is held or the speed is low; the
   * frame count and the velocity's measure together never exceed the
   * measure at release; while a callback is waiting, both components are
   * within 0.92^frames of the release velocity; and no frame runs past the
   * first power of 0.92 that brings the release velocity to the stop speed.
   */
  predicate SettleProgress(v0: Point, started: bool, frames: nat, waiting: bool, v: Point, dragging: bool)
  {
    && (started ==> waiting || dragging || !Moving(v))
    && frames + Steps(v) <= Steps(v0) + (if waiting then 0 else 1)
    && (waiting ==> PowerBound(v0, v, frames))
    && (forall n: nat :: SettledWithin(v0, n) ==> frames <= n + (if waiting then 0 else 1))
  }

  /**
   * `SettleProgress` carries over a frame that either decayed both
   * components and is waiting again, or ran no callback because the box was
   * held or slow.
   */
  lemma SettleStep(v0: Point, started: bool, frames: nat, v: Point, w: Point, waiting: bool, dragging: bool)
    requires SettleProgress(v0, started, frames, true, v, dragging)
    requires waiting ==> Steps(w) < Steps(v)
    requires waiting ==> Abs(w.x) <= Abs(v.x) * MomentumFactor && Abs(w.y) <= Abs(v.y) * MomentumFactor
    requires !waiting ==> w == v && (dragging || !Moving(v))
    requires !Moving(v) ==> !waiting
    ensures SettleProgress(v0, started, frames + 1, waiting, w, dragging)
  {
    if waiting {
      PowerBoundStep(v0, v, w, frames);
    }
    forall n: nat | SettledWithin(v0, n)
      ensures frames + 1 <= n + (if waiting then 0 else 1)
    {
      if frames == n {
        assert PowerBound(v0, v, n);
        assert Abs(v.x) <= StopSpeed && Abs(v.y) <= StopSpeed;
      }
    }
  }

  /** One more frame of the callbacks that are waiting keeps `SettleProgress`. */
  lemma FrameSettles(v0: Point, started: bool, frames: nat, cs: seq<Momentum>, dragging: bool, canvasWidth: nat, canvasHeight: nat, s: Motion)
    requires canvasWidth > 0 && canvasHeight > 0
    requires cs != [] && s.rescheduled == []
    requires SettleProgress(v0, started, frames, true, s.velocity, dragging)
    ensures var t := RunFrame(cs, dragging, canvasWidth, canvasHeight, s);
      SettleProgress(v0, started, frames + 1, t.rescheduled != [], t.velocity, dragging)
  {
    var t := RunFrame(cs, dragging, canvasWidth, canvasHeight, s);
    RunFrameProgress(cs, dragging, canvasWidth, canvasHeight, s);
    RunFrameDecay(cs, dragging, canvasWidth, canvasHeight, s);
    SettleStep(v0, started, frames, s.velocity, t.velocity, t.rescheduled != [], dragging);
  }

  /** Every box a frame commits is normalised and keeps the size of the captured boxes. */
  predicate Consistent(cs: seq<Momentum>, s: Motion)
  {
    && Normalised(s.position)
    && (forall m :: m in cs ==> Normalised(m.base) && SameSize(m.base, s.position))
    && (forall m :: m in s.rescheduled ==> Normalised(m.base) && SameSize(m.base, s.position))
  }

  lemma {:induction false} RunFrameConsistent(cs: seq<Momentum>, dragging: bool, canvasWidth: nat, canvasHeight: nat, s: Motion)
    requires canvasWidth > 0 && canvasHeight > 0
    requires Consistent(cs, s)
    ensures var t := RunFrame(cs, dragging, canvasWidth, canvasHeight, s);
      Consistent([], t) && SameSize(t.position, s.position)
    decreases |cs|
  {
    if cs != [] {
      var s1 := ApplyMomentum(cs[0], dragging, canvasWidth, canvasHeight, s);
      assert cs[0] in cs;
      assert forall m :: m in cs[1..] ==> m in cs;
      RunFrameConsistent(cs[1..], dragging, canvasWidth, canvasHeight, s1);
    }
  }

  class BoxController {
    /** The committed box (`position` state). */
    var position: Rect
    var isAnimating: bool
    /** `isDraggingRef`. */
    var dragging: bool
    /** `startPosRef`: the pointer's offset from the box's top-left corner. */
    var grabOffset: Point
    /** `velocityRef`, in screen pixels per pointer event. */
    var velocity: Point
    /** `lastMousePosRef`: the previous pointer position on the screen. */
    var lastMouse: Point
    /** `lastPositionRef`: where the transition starts from. */
    var lastPosition: Rect
    /** `animationStartTimeRef`, in milliseconds. */
    var animationStart: int
    /** Whether the image has loaded (`image.complete`). */
    var imageReady: bool
    /** `imageSize`: the natural size of the image, in pixels. */
    var imageWidth: nat
    var imageHeight: nat
    /** The canvas's backing size, in pixels. */
    var canvasWidth: nat
    var canvasHeight: nat
    /** The `applyMomentum` callbacks waiting for the next animation frame. */
    var pending: seq<Momentum>
    /** Every call of `onPositionChange`, oldest first. */
    var updates: seq<PositionUpdate>

    ghost predicate Valid()
      reads this
    {
      && canvasWidth > 0 && canvasHeight > 0
      && Normalised(position) && Normalised(lastPosition) && SameSize(lastPosition, position)
      && forall m :: m in pending ==> Normalised(m.base) && SameSize(m.base, position)
    }

    constructor (initial: Option<Rect>)
      requires initial.Some? ==> Normalised(initial.value)
      ensures Valid()
      ensures position == (if initial.Some? then initial.value else DefaultPosition)
      ensures lastPosition == position
      ensures !isAnimating && !dragging && !imageReady
      ensures velocity == Point(0.0, 0.0) && lastMouse == Point(0.0, 0.0) && grabOffset == Point(0.0, 0.0)
      ensures animationStart == 0 && imageWidth == 0 && imageHeight == 0
      ensures canvasWidth == DefaultCanvasWidth && canvasHeight == DefaultCanvasHeight
      ensures pending == [] && updates == []
    {
      position := if initial.Some? then initial.value else DefaultPosition;
      lastPosition := if initial.Some? then initial.value else DefaultPosition;
      isAnimating, dragging, imageReady := false, false, false;
      velocity, lastMouse, grabOffset := Point(0.0, 0.0), Point(0.0, 0.0), Point(0.0, 0.0);
      animationStart, imageWidth, imageHeight := 0, 0, 0;
      canvasWidth, canvasHeight := DefaultCanvasWidth, DefaultCanvasHeight;
      pending, updates := [], [];
    }

    /** `handleImageLoad`: the canvas takes the image's natural size. */
    method ImageLoaded(naturalWidth: nat, naturalHeight: nat)
      requires Valid() && naturalWidth > 0 && naturalHeight > 0
      modifies this`canvasWidth, this`canvasHeight, this`imageWidth, this`imageHeight, this`imageReady
      ensures Valid() && imageReady
      ensures canvasWidth == naturalWidth && canvasHeight == naturalHeight
      ensures imageWidth == naturalWidth && imageHeight == naturalHeight
    {
      canvasWidth, canvasHeight := naturalWidth, naturalHeight;
      imageWidth, imageHeight := naturalWidth, naturalHeight;
      imageReady := true;
    }

    /**
     * `handleMouseDown`: records the pointer and zeroes the velocity; a
     * press inside the box starts a drag and stops the transition.
     */
    method MouseDown(client: Point, bounds: ClientRect)
      requires Valid() && bounds.width > 0.0 && bounds.height > 0.0
      modifies this`lastMouse, this`velocity, this`dragging, this`grabOffset, this`isAnimating
      ensures Valid()
      ensures lastMouse == client && velocity == Point(0.0, 0.0)
      ensures var p := Point((client.x - bounds.left) / bounds.width, (client.y - bounds.top) / bounds.height);
        if Hit(position, p) then
          dragging && !isAnimating && grabOffset == Point(p.x - position.x, p.y - position.y)
        else
          dragging == old(dragging) && isAnimating == old(isAnimating) && grabOffset == old(grabOffset)
    {
      var p := Point(Normalize(client.x, bounds.left, canvasWidth, bounds.width),
                     Normalize(client.y, bounds.top, canvasHeight, bounds.height));
      lastMouse := client;
      velocity := Point(0.0, 0.0);
      if Hit(position, p) {
        dragging := true;
        grabOffset := Point(p.x - position.x, p.y - position.y);
        isAnimating := false;
      }
    }

    /**
     * `handleMouseMove`: while dragging, samples the velocity from the
     * previous pointer event, moves the box under the pointer (clamped into
     * the image) and reports the new box and its confidence.
     */
    method MouseMove(client: Point, bounds: ClientRect)
      requires Valid() && bounds.width > 0.0 && bounds.height > 0.0
      modifies this`velocity, this`lastMouse, this`position, this`lastPosition, this`updates
      ensures Valid()
      ensures !dragging ==> unchanged(this)
      ensures dragging ==>
        && velocity == Point((client.x - old(lastMouse.x)) * VelocityScale, (client.y - old(lastMouse.y)) * VelocityScale)
        && lastMouse == client
        && lastPosition == old(position)
        && position == Rect(
             ClampAxis((client.x - bounds.left) / bounds.width - grabOffset.x, old(position.width)),
             ClampAxis((client.y - bounds.top) / bounds.height - grabOffset.y, old(position.height)),
             old(position.width), old(position.height))
        && updates == old(updates) + [PositionUpdate(position, CalculateConfidence(position, imageWidth, imageHeight))]
    {
      if !dragging {
        return;
      }
      var px := Normalize(client.x, bounds.left, canvasWidth, bounds.width);
      var py := Normalize(client.y, bounds.top, canvasHeight, bounds.height);
      velocity := Point((client.x - lastMouse.x) * VelocityScale, (client.y - lastMouse.y) * VelocityScale);
      lastMouse := client;
      var newX := ClampAxis(px - grabOffset.x, position.width);
      var newY := ClampAxis(py - grabOffset.y, position.height);
      lastPosition := position;
      UpdateDetectionResult(newX, newY);
    }

    /** `updateDetectionResult`: commits a new top-left corner and reports it. */
    method UpdateDetectionResult(newX: real, newY: real)
      requires Valid()
      requires 0.0 <= newX <= 1.0 - position.width && 0.0 <= newY <= 1.0 - position.height
      requires SameSize(lastPosition, position)
      modifies this`position, this`updates
      ensures Valid()
      ensures position == old(position).(x := newX, y := newY)
      ensures updates == old(updates) + [PositionUpdate(position, CalculateConfidence(position, imageWidth, imageHeight))]
    {
      position := position.(x := newX, y := newY);
      updates := updates + [PositionUpdate(position, CalculateConfidence(position, imageWidth, imageHeight))];
    }

    /**
     * `handleMouseUp` (also bound to mouse-leave): ends a drag, starts the
     * 300 ms transition and schedules momentum for the next frame. The
     * momentum callback keeps the position and image size of this moment.
     */
    method MouseUp(now: int)
      requires Valid()
      modifies this`dragging, this`isAnimating, this`animationStart, this`pending
      ensures Valid()
      ensures !old(dragging) ==> unchanged(this)
      ensures old(dragging) ==>
        && !dragging && isAnimating && animationStart == now
        && pending == old(pending) + [Momentum(position, imageWidth, imageHeight)]
    {
      if dragging {
        dragging := false;
        isAnimating := true;
        animationStart := now;
        pending := pending + [Momentum(position, imageWidth, imageHeight)];
      }
    }

    /**
     * One animation frame of momentum: every pending callback runs once, in
     * order; each one that finds the box released and the velocity above the
     * stop speed moves the box, decays the velocity and asks for the next
     * frame.
     */
    method AnimationFrame()
      requires Valid()
      modifies this`position, this`velocity, this`updates, this`pending
      ensures Valid()
      ensures var t := RunFrame(old(pending), dragging, canvasWidth, canvasHeight,
                                Motion(old(position), old(velocity), old(updates), []));
        position == t.position && velocity == t.velocity && updates == t.updates && pending == t.rescheduled
      ensures Steps(velocity) <= old(Steps(velocity))
      ensures pending != [] ==> Steps(velocity) < old(Steps(velocity))
      ensures pending == [] ==> velocity == old(velocity) && position == old(position) && updates == old(updates)
      ensures pending == [] && old(pending) != [] ==> dragging || !Moving(velocity)
    {
      ghost var start := Motion(position, velocity, updates, []);
      var callbacks := pending;
      pending := [];
      var i := 0;
      while i < |callbacks|
        invariant 0 <= i <= |callbacks|
        invariant RunFrame(callbacks[i..], dragging, canvasWidth, canvasHeight, Motion(position, velocity, updates, pending))
               == RunFrame(callbacks, dragging, canvasWidth, canvasHeight, start)
      {
        var m := callbacks[i];
        assert callbacks[i..][1..] == callbacks[i + 1..];
        if !dragging && Moving(velocity) {
          var r := MomentumTarget(m, velocity, canvasWidth, canvasHeight);
          position := r;
          updates := updates + [PositionUpdate(r, CalculateConfidence(r, m.imageWidth, m.imageHeight))];
          velocity := Decay(velocity);
          pending := pending + [m];
        }
        i := i + 1;
      }
      RunFrameProgress(callbacks, dragging, canvasWidth, canvasHeight, start);
      RunFrameConsistent(callbacks, dragging, canvasWidth, canvasHeight, start);
    }

    /**
     * Animation frames with no pointer event in between, until no momentum
     * callback is left. Each frame that asks for another one has multiplied
     * both velocity components by at most 0.92, so momentum is over one
     * frame after the first `n` with |v0| * 0.92^n at or below the stop
     * speed, and within one frame more than the measure of the velocity at
     * the start.
     */
    method SettleMomentum() returns (frames: nat)
      requires Valid()
      modifies this`position, this`velocity, this`updates, this`pending
      ensures Valid() && pending == []
      ensures old(pending) != [] && !dragging ==> !Moving(velocity)
      ensures frames <= old(Steps(velocity)) + 1
      ensures forall n: nat :: SettledWithin(old(velocity), n) ==> frames <= n + 1
    {
      frames := 0;
      while pending != []
        invariant Valid()
        invariant SettleProgress(old(velocity), old(pending) != [], frames, pending != [], velocity, dragging)
        decreases Steps(velocity), |pending|
      {
        ghost var before := Motion(position, velocity, updates, []);
        ghost var callbacks := pending;
        AnimationFrame();
        FrameSettles(old(velocity), old(pending) != [], frames, callbacks, dragging, canvasWidth, canvasHeight, before);
        frames := frames + 1;
      }
    }

    /** The box the draw loop shows at time `now`: eased from `lastPosition` while animating. */
    function Displayed(now: int, elastic: real -> real): (r: Rect)
      reads this
      ensures SameSize(r, position)
      ensures !isAnimating || Progress(now - animationStart) >= 1.0 ==> r == position
    {
      if isAnimating && Progress(now - animationStart) < 1.0 then
        var e := EaseOutElastic(Progress(now - animationStart), elastic);
        Rect(Lerp(lastPosition.x, position.x, e), Lerp(lastPosition.y, position.y, e), position.width, position.height)
      else
        position
    }

    /**
     * One tick of the draw loop (`animate`), without the painting: the box
     * it draws and the confidence on its label. Once the transition has run
     * its 300 ms the animation flag clears. Nothing is drawn before the image
     * has loaded.
     */
    method RenderFrame(now: int, elastic: real -> real) returns (frame: Option<Frame>)
      modifies this`isAnimating
      ensures !imageReady ==> frame == None && isAnimating == old(isAnimating)
      ensures imageReady ==>
        var shown := old(Displayed(now, elastic));
        frame == Some(Frame(shown, CalculateConfidence(shown, imageWidth, imageHeight)))
      ensures isAnimating == (old(isAnimating) && !(imageReady && Progress(now - animationStart) >= 1.0))
    {
      if !imageReady {
        return None;
      }
      var shown := Displayed(now, elastic);
      if isAnimating && Progress(now - animationStart) >= 1.0 {
        isAnimating := false;
      }
      frame := Some(Frame(shown, CalculateConfidence(shown, imageWidth, imageHeight)));
    }
  }

  /** Transition endpoints: no easing at progress 0, the target at progress 1. */
  lemma TransitionEndpoints(s: real, e: real, elastic: real -> real)
    ensures Lerp(s, e, EaseOutElastic(0.0, elastic)) == s
    ensures Lerp(s, e, EaseOutElastic(1.0, elastic)) == e
  {
  }
}
