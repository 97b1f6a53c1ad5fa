/**
 * Geometry and per-frame arithmetic shared by the two character views of the
 * desktop pet overlay: the circular hit test, the clamp that keeps a dragged or
 * dancing character on the canvas, the walking edge bounce, the jump
 * integration, the talk countdown, the blink counter, the happiness decay,
 * the speech-message index and the palette of colours. Both views run exactly
 * this arithmetic; each view module builds its own frame step from these
 * pieces.
 *
 * Positions and velocities are reals; the trigonometric values and the
 * floating-point rounding of the original are not modelled.
 */
module Motion {

  /** Edge length of the character's square bounding box (`mate.size`). */
  const Size: real := 80.0
  /** Added to the vertical velocity on every frame of a jump (`mate.gravity`). */
  const Gravity: real := 0.8
  /** Horizontal speed of a walk, multiplied by the walk direction. */
  const WalkSpeed: real := 3.0
  /** Vertical velocity given by a jump (negative is upwards on the canvas). */
  const JumpImpulse: real := -15.0
  /** A press turns into a drag once the pointer is farther than this from the grab point. */
  const DragThreshold: real := 5.0
  /** Happiness lost per frame. */
  const HappinessDecay: real := 0.01
  /** The eyes close once the blink counter exceeds BlinkStart ... */
  const BlinkStart: int := 180
  /** ... and the counter wraps to 0 once it exceeds BlinkEnd. */
  const BlinkEnd: int := 190
  /** Frames for which one speech message stays on screen. */
  const MessagePeriod: int := 25
  /** Length of every speech-message list. */
  const MessageCount: int := 6

  /** The behaviour state of the character; `Talking` is declared but never entered. */
  datatype Behavior = Idle | Walking | Jumping | Talking

  /**
   * The colours the two views paint the character with, by their CSS names:
   * #4169E1, #FF69B4, #87CEEB, #FFB6C1, #98FB98, #DDA0DD, #F0E68C, #8B4513, #FFD700.
   */
  datatype Color = RoyalBlue | HotPink | SkyBlue | LightPink | PaleGreen | Plum | Khaki | SaddleBrown | Gold

  function Max(a: real, b: real): real { if a >= b then a else b }
  function Min(a: real, b: real): real { if a <= b then a else b }
  function MaxInt(a: int, b: int): int { if a >= b then a else b }

  // ---------------------------------------------------------------------
  // Hit test and drag threshold
  // ---------------------------------------------------------------------

  /**
   * The point at offset (ox, oy) from a circle's centre lies strictly inside
   * the circle of radius r. For r > 0 this is `sqrt(ox^2 + oy^2) < r`; for
   * r <= 0 that comparison is false for every point, and so is this one.
   */
  predicate WithinRadius(ox: real, oy: real, r: real)
  {
    0.0 < r && ox * ox + oy * oy < r * r
  }

  /** The pointer (px, py) is over the character whose box starts at (x, y). */
  predicate OverCharacter(px: real, py: real, x: real, y: real, size: real)
  {
    WithinRadius(px - (x + size / 2.0), py - (y + size / 2.0), size / 2.0)
  }

  /** The pointer (px, py) is more than DragThreshold away from the grab point (ax, ay). */
  predicate BeyondDragThreshold(px: real, py: real, ax: real, ay: real)
  {
    (px - ax) * (px - ax) + (py - ay) * (py - ay) > DragThreshold * DragThreshold
  }

  /** The hit test is symmetric: reflecting the point through the centre changes nothing. */
  lemma HitTestSymmetric(ox: real, oy: real, r: real)
    ensures WithinRadius(-ox, -oy, r) <==> WithinRadius(ox, oy, r)
  {
  }

  /** The hit test is scale-consistent: scaling the offset and the radius by k > 0 keeps the verdict. */
  lemma HitTestScales(ox: real, oy: real, r: real, k: real)
    requires 0.0 < k
    ensures WithinRadius(k * ox, k * oy, k * r) <==> WithinRadius(ox, oy, r)
  {
    assert (k * ox) * (k * ox) + (k * oy) * (k * oy) == (k * k) * (ox * ox + oy * oy);
    assert (k * r) * (k * r) == (k * k) * (r * r);
    assert 0.0 < k * k;
    assert 0.0 < k * r <==> 0.0 < r;
  }

  /** A larger character accepts every point a smaller one accepts. */
  lemma HitTestGrows(ox: real, oy: real, r: real, r': real)
    requires r <= r'
    requires WithinRadius(ox, oy, r)
    ensures WithinRadius(ox, oy, r')
  {
    assert 0.0 < r;
    assert r * (r' - r) >= 0.0;
    assert r' * (r' - r) >= 0.0;
  }

  /**
   * With the default size, a press 40 pixels to the right of the centre is not
   * over the character (the circle is open), while one 10 pixels away is.
   */
  lemma PressDistanceExamples(x: real, y: real)
    ensures !OverCharacter(x + Size / 2.0 + 40.0, y + Size / 2.0, x, y, Size)
    ensures OverCharacter(x + Size / 2.0 + 10.0, y + Size / 2.0, x, y, Size)
  {
  }

  // ---------------------------------------------------------------------
  // Keeping a position on the canvas
  // ---------------------------------------------------------------------

  /**
   * `Math.max(0, Math.min(hi, v))`: the coordinate of a dragged or dancing
   * character, where hi is the canvas extent minus the character size.
   */
  function Clamp(v: real, hi: real): (r: real)
    ensures 0.0 <= r
    ensures 0.0 <= hi ==> r <= hi
    ensures 0.0 <= v <= hi ==> r == v
    ensures hi < 0.0 ==> r == 0.0
    ensures v <= 0.0 ==> r == 0.0
    ensures 0.0 <= hi <= v ==> r == hi
    ensures r == 0.0 || r == v || r == hi
  {
    Max(0.0, Min(hi, v))
  }

  // ---------------------------------------------------------------------
  // Walking
  // ---------------------------------------------------------------------

  /** Horizontal position, velocity and walk direction of a walking character. */
  datatype Walker = Walker(x: real, dx: real, dir: int)

  /** The walk keeps its speed: dx is WalkSpeed times a direction of +1 or -1. */
  predicate Paced(w: Walker)
  {
    (w.dir == 1 || w.dir == -1) && w.dx == WalkSpeed * w.dir as real
  }

  /**
   * One frame of walking on a canvas whose rightmost position is maxX: move by
   * dx, and if the new position is at or past either edge, reverse both the
   * velocity and the walk direction. The position itself is not clamped.
   */
  function WalkFrame(w: Walker, maxX: real): (r: Walker)
    ensures r.x == w.x + w.dx
    ensures (r.x <= 0.0 || r.x >= maxX) ==> r.dx == -w.dx && r.dir == -w.dir
    ensures 0.0 < r.x < maxX ==> r.dx == w.dx && r.dir == w.dir
    ensures Paced(w) ==> Paced(r)
  {
    var x := w.x + w.dx;
    if x <= 0.0 || x >= maxX then Walker(x, -w.dx, -w.dir) else Walker(x, w.dx, w.dir)
  }

  /** n frames of uninterrupted walking. */
  function WalkFrames(w: Walker, maxX: real, n: nat): Walker
  {
    if n == 0 then w else WalkFrame(WalkFrames(w, maxX, n - 1), maxX)
  }

  /**
   * The band an uninterrupted walk stays in: at most one step (WalkSpeed)
   * outside [0, maxX], and when outside it, already heading back.
   */
  predicate NearCanvas(w: Walker, maxX: real)
  {
    -WalkSpeed <= w.x <= maxX + WalkSpeed &&
    (w.x < 0.0 ==> w.dx > 0.0) &&
    (w.x > maxX ==> w.dx < 0.0)
  }

  /**
   * A walk that starts on the canvas never strays more than one step past
   * either edge, however many frames it runs. (It can leave [0, maxX]: the
   * bounce does not clamp.)
   */
  lemma {:induction false} WalkStaysNearCanvas(w: Walker, maxX: real, n: nat)
    requires 0.0 <= maxX
    requires Paced(w) && NearCanvas(w, maxX)
    ensures Paced(WalkFrames(w, maxX, n)) && NearCanvas(WalkFrames(w, maxX, n), maxX)
  {
    if n > 0 {
      WalkStaysNearCanvas(w, maxX, n - 1);
    }
  }

  /**
   * A walker standing exactly on the left edge and heading left bounces on
   * every frame and never gets away: it alternates between x = 0 and
   * x = -WalkSpeed forever. (This state is reachable: a drag or a dance tick
   * clamps x to 0 while the stored walk direction is still -1.) The right
   * edge traps a walker heading right in the same way (`WalkStuckAtRightEdge`).
   */
  lemma {:induction false} WalkStuckAtLeftEdge(maxX: real, k: nat)
    requires 0.0 < maxX
    ensures WalkFrames(Walker(0.0, -WalkSpeed, -1), maxX, 2 * k) == Walker(0.0, -WalkSpeed, -1)
    ensures WalkFrames(Walker(0.0, -WalkSpeed, -1), maxX, 2 * k + 1) == Walker(-WalkSpeed, WalkSpeed, 1)
  {
    if k > 0 {
      WalkStuckAtLeftEdge(maxX, k - 1);
      assert 2 * k == 2 * (k - 1) + 1 + 1;
    }
  }

  /**
   * The mirror image at the right edge: a walker standing exactly on maxX
   * and heading right alternates between maxX and maxX + WalkSpeed forever.
   * A dance tick that clamps a right-walking character onto the right edge
   * leaves it in this state.
   */
  lemma {:induction false} WalkStuckAtRightEdge(maxX: real, k: nat)
    requires 0.0 < maxX
    ensures WalkFrames(Walker(maxX, WalkSpeed, 1), maxX, 2 * k) == Walker(maxX, WalkSpeed, 1)
    ensures WalkFrames(Walker(maxX, WalkSpeed, 1), maxX, 2 * k + 1) == Walker(maxX + WalkSpeed, -WalkSpeed, -1)
  {
    if k > 0 {
      WalkStuckAtRightEdge(maxX, k - 1);
      assert 2 * k == 2 * (k - 1) + 1 + 1;
    }
  }

  // ---------------------------------------------------------------------
  // Jumping
  // ---------------------------------------------------------------------

  /** Vertical position and velocity after a frame of a jump, and whether it landed. */
  datatype Flight = Flight(y: real, v: real, landed: bool)

  /**
   * One frame of a jump towards ground level groundY: move by the velocity,
   * add gravity, and once the character is at or below the ground snap it
   * onto the ground with zero velocity.
   */
  function JumpFrame(y: real, v: real, groundY: real): (r: Flight)
    ensures r.landed <==> y + v >= groundY
    ensures r.landed ==> r.y == groundY && r.v == 0.0
    ensures !r.landed ==> r.y == y + v && r.v == v + Gravity
    ensures r.y <= groundY
    ensures v < 0.0 ==> r.y < y
    ensures 0.0 <= v && y <= groundY ==> y <= r.y
  {
    var y' := y + v;
    if y' >= groundY then Flight(groundY, 0.0, true) else Flight(y', v + Gravity, false)
  }

  /** n frames of a jump, which stops changing once it has landed. */
  function Airborne(y: real, v: real, groundY: real, n: nat): Flight
  {
    if n == 0 then Flight(y, v, false)
    else
      var f := Airborne(y, v, groundY, n - 1);
      if f.landed then f else JumpFrame(f.y, f.v, groundY)
  }

  /** Height offset (negative is above the ground) after n frames of a jump from the ground. */
  function Rise(n: nat): real
  {
    JumpImpulse * n as real + (Gravity / 2.0) * (n as real) * (n as real - 1.0)
  }

  /** Velocity after n frames of a jump from the ground that has not landed. */
  function Speed(n: nat): real
  {
    JumpImpulse + Gravity * n as real
  }

  lemma RiseStep(n: nat)
    ensures Rise(n) + Speed(n) == Rise(n + 1)
  {
    var m := n as real;
    calc {
      Rise(n) + Speed(n);
      -15.0 * m + 0.4 * m * (m - 1.0) + (-15.0 + 0.8 * m);
      -15.0 * (m + 1.0) + 0.4 * (m + 1.0) * m;
      Rise(n + 1);
    }
  }

  lemma RiseNegative(n: nat)
    requires 1 <= n <= 38
    ensures Rise(n) < 0.0
  {
    var m := n as real;
    var c := 0.4 * m - 15.4;
    assert Rise(n) == m * c;
    assert c < 0.0 && 0.0 < m;
    assert m * c < 0.0;
  }

  /**
   * A jump from the ground with the jump impulse stays in the air for 38
   * frames, strictly above the ground, and on the 39th frame lands exactly on
   * the ground with zero velocity.
   */
  lemma {:induction false} JumpFromGround(groundY: real, n: nat)
    requires n <= 39
    ensures n < 39 ==> Airborne(groundY, JumpImpulse, groundY, n) == Flight(groundY + Rise(n), Speed(n), false)
    ensures 1 <= n < 39 ==> Airborne(groundY, JumpImpulse, groundY, n).y < groundY
    ensures n == 39 ==> Airborne(groundY, JumpImpulse, groundY, n) == Flight(groundY, 0.0, true)
  {
    if n > 0 {
      JumpFromGround(groundY, n - 1);
      RiseStep(n - 1);
      if n < 39 {
        RiseNegative(n);
      } else {
        assert Rise(39) == 7.8;
      }
    }
  }

  // ---------------------------------------------------------------------
  // Counters
  // ---------------------------------------------------------------------

  /** One frame of the talk countdown: `Math.max(0, talkTimer - 1)`. */
  function TalkTick(t: int): (r: int)
    ensures 0 <= r
    ensures 0 <= t ==> r <= t
    ensures 0 < t ==> r == t - 1
  {
    MaxInt(0, t - 1)
  }

  function TalkTicks(t: int, n: nat): int
  {
    if n == 0 then t else TalkTick(TalkTicks(t, n - 1))
  }

  /** After n frames the countdown has dropped by n, but never below zero. */
  lemma {:induction false} TalkCountdown(t: int, n: nat)
    requires 0 <= t
    ensures TalkTicks(t, n) == MaxInt(0, t - n)
  {
    if n > 0 {
      TalkCountdown(t, n - 1);
    }
  }

  /** One frame of happiness decay: `Math.max(0, happiness - 0.01)`. */
  function Decay(h: real): (r: real)
    ensures 0.0 <= r
    ensures 0.0 <= h ==> r <= h
    ensures HappinessDecay <= h ==> r == h - HappinessDecay
    ensures h < HappinessDecay ==> r == 0.0
  {
    Max(0.0, h - HappinessDecay)
  }

  /** Blink counter and blink flag. */
  datatype Blink = Blink(timer: int, closed: bool)

  /** The blink invariant: counter in [0, BlinkEnd], eyes closed exactly on the last ten values. */
  predicate BlinkPhase(b: Blink)
  {
    0 <= b.timer <= BlinkEnd && (b.closed <==> BlinkStart < b.timer)
  }

  /**
   * One frame of the blink counter: count up; past BlinkStart close the eyes,
   * past BlinkEnd open them and restart from 0. On a valid phase this counts
   * modulo BlinkEnd + 1.
   */
  function BlinkTick(b: Blink): (r: Blink)
    ensures BlinkPhase(b) ==> BlinkPhase(r)
  {
    var t := b.timer + 1;
    if t > BlinkStart then
      if t > BlinkEnd then Blink(0, false) else Blink(t, true)
    else Blink(t, b.closed)
  }

  /** On a valid phase one frame advances the counter by one, wrapping from BlinkEnd to 0. */
  lemma BlinkTickCounts(b: Blink)
    requires BlinkPhase(b)
    ensures BlinkTick(b).timer == if b.timer == BlinkEnd then 0 else b.timer + 1
  {
  }

  function BlinkTicks(b: Blink, n: nat): Blink
  {
    if n == 0 then b else BlinkTick(BlinkTicks(b, n - 1))
  }

  /** Counting one up modulo BlinkEnd + 1 wraps exactly at BlinkEnd. */
  lemma WindowStep(a: int)
    ensures (a + 1) % (BlinkEnd + 1) == if a % (BlinkEnd + 1) == BlinkEnd then 0 else a % (BlinkEnd + 1) + 1
  {
    var q := a / (BlinkEnd + 1);
    assert a == q * (BlinkEnd + 1) + a % (BlinkEnd + 1);
    if a % (BlinkEnd + 1) == BlinkEnd {
      assert a + 1 == (q + 1) * (BlinkEnd + 1);
    } else {
      assert a + 1 == q * (BlinkEnd + 1) + (a % (BlinkEnd + 1) + 1);
    }
  }

  /** The phase after n frames is determined by the counter modulo the window of BlinkEnd + 1 frames. */
  lemma {:induction false} BlinkCycle(b: Blink, n: nat)
    requires BlinkPhase(b)
    ensures BlinkTicks(b, n).timer == (b.timer + n) % (BlinkEnd + 1)
    ensures BlinkPhase(BlinkTicks(b, n))
  {
    if n > 0 {
      BlinkCycle(b, n - 1);
      BlinkTickCounts(BlinkTicks(b, n - 1));
      WindowStep(b.timer + n - 1);
    }
  }

  /** Adding a whole number of windows leaves a counter inside the window unchanged modulo the window. */
  lemma WindowWhole(t: int, n: int)
    requires 0 <= t <= BlinkEnd && n % (BlinkEnd + 1) == 0
    ensures (t + n) % (BlinkEnd + 1) == t
  {
    var w := BlinkEnd + 1;
    var q := n / w;
    assert n == w * q;
    var d := (t + n) / w;
    assert t + n == w * d + (t + n) % w;
    assert w * (d - q) == t - (t + n) % w;
    assert -w < w * (d - q) < w;
    assert d == q;
  }

  /** After any whole number of windows of BlinkEnd + 1 = 191 frames the blink state repeats exactly. */
  lemma BlinkPeriod(b: Blink, n: nat)
    requires BlinkPhase(b)
    requires n % (BlinkEnd + 1) == 0
    ensures BlinkTicks(b, n) == b
  {
    BlinkCycle(b, n);
    WindowWhole(b.timer, n);
  }

  // ---------------------------------------------------------------------
  // Speech messages
  // ---------------------------------------------------------------------

  /** `Math.floor(talkTimer / 25) % messages.length` for a non-negative talk timer. */
  function MessageIndex(t: int): (i: int)
    requires 0 <= t
    ensures 0 <= i < MessageCount
    ensures t < MessagePeriod * MessageCount ==> i == t / MessagePeriod
  {
    (t / MessagePeriod) % MessageCount
  }

  /** The message changes only at multiples of 25 frames, and then moves one place through the list. */
  lemma MessageRotation(t: int)
    requires 0 <= t
    ensures MessageIndex(t + MessagePeriod) == (MessageIndex(t) + 1) % MessageCount
    ensures t % MessagePeriod != 0 ==> MessageIndex(t - 1) == MessageIndex(t)
  {
    var q := t / MessagePeriod;
    assert (t + MessagePeriod) / MessagePeriod == q + 1;
    assert (q + 1) % MessageCount == (q % MessageCount + 1) % MessageCount;
    if t % MessagePeriod != 0 {
      assert (t - 1) / MessagePeriod == q;
    }
  }
}
