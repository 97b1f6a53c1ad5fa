/**
 * The timed variant of the character view (the pink pet). Its record `mate`
 * and the pointer variables are changed by the press, drag, release and
 * double-click handlers, by the actions walk/jump/talk/dance and by the
 * per-frame animation step. Unlike the menu variant, the actions are not
 * toggles. `walk()` schedules a timeout that ends the walk and restores the
 * colour. `jump()` and `talk()` schedule timeouts that only restore the
 * colour; the jump and the countdown run on, and a `jump()` made while
 * jumping does nothing. `dance()` schedules no timeout: it starts an interval
 * that stops itself once its tick counter passes 80.
 *
 * `View` is a value snapshot of the state; every handler is first specified
 * as a function on snapshots, and the class `CharacterView` at the end
 * updates its variables in place and proves that it does what the function
 * says. A pending timeout is a counter that the corresponding event method
 * consumes; every live dance interval is its own tick counter in `dances`.
 */
module PetMate {
  import opened Motion

  /** The talk countdown that `talk()` sets: two seconds of frames. */
  const TalkTime: int := 120
  /** A dance interval clears itself on the tick where its counter exceeds this. */
  const DanceTicks: nat := 80
  /** The pet's resting colour (`mate.baseColor`). */
  const BaseColor: Color := LightPink

  const PetMessages: seq<string> := ["Woof!", "Hello friend!", "Pet me!", "I love you!", "Play with me!", "Wag wag!"]

  datatype Option<T> = None | Some(value: T)

  /** The pet's record. */
  datatype Mate = Mate(
    x: real, y: real, dx: real, dy: real,
    baseColor: Color, currentColor: Color,
    state: Behavior, isDragging: bool, walkDirection: int,
    jumpVelocity: real, groundY: real,
    talkTimer: int, blinkTimer: int, isBlinking: bool,
    tailWag: real, earBounce: real)

  /** Snapshot of the record, the pointer variables and the pending callbacks. */
  datatype View = View(
    mate: Mate,
    mouseDown: bool, offsetX: real, offsetY: real,
    // the tick counter of every dance interval still running
    dances: seq<nat>,
    // timeouts scheduled and not yet run: the end of a walk, and a colour reset
    walkResets: nat, colorResets: nat)

  /** The view as it starts up. */
  function Initial(): (v: View)
    ensures Consistent(v)
  {
    View(Mate(200.0, 200.0, 0.0, 0.0, BaseColor, BaseColor, Idle, false, 1, 0.0, 200.0, 0, 0, false, 0.0, 0.0),
         false, 0.0, 0.0, [], 0, 0)
  }

  /** What every frame keeps true of the record. */
  predicate Sound(m: Mate)
  {
    && 0 <= m.talkTimer <= TalkTime
    && BlinkPhase(Blink(m.blinkTimer, m.isBlinking))
    && (m.walkDirection == 1 || m.walkDirection == -1)
    && m.baseColor == BaseColor
  }

  /** Every live dance interval has ticked at most DanceTicks times. */
  predicate DancesLive(dances: seq<nat>)
  {
    forall i :: 0 <= i < |dances| ==> dances[i] <= DanceTicks
  }

  /** What every handler, action and frame keeps true of the view. */
  predicate Consistent(v: View)
  {
    Sound(v.mate) && (v.mouseDown <==> v.mate.isDragging) && DancesLive(v.dances)
  }

  // ---------------------------------------------------------------------
  // Actions and their timeouts
  // ---------------------------------------------------------------------

  /** `walk()`: start walking in the current direction and schedule the end of the walk. */
  function WalkAction(v: View): (r: View)
    ensures r.mate.state == Walking && r.mate.dx == WalkSpeed * v.mate.walkDirection as real
    ensures r.mate.currentColor == SkyBlue && r.walkResets == v.walkResets + 1
    ensures r.mate.x == v.mate.x && r.mate.y == v.mate.y && r.dances == v.dances
    ensures Consistent(v) ==> Consistent(r)
  {
    var m := v.mate;
    v.(mate := m.(state := Walking, dx := WalkSpeed * m.walkDirection as real, currentColor := SkyBlue),
       walkResets := v.walkResets + 1)
  }

  /**
   * The timeout scheduled by `walk()` fires: the pet stands and takes its
   * resting colour, whatever it is doing by then.
   */
  function WalkTimeout(v: View): (r: View)
    requires v.walkResets > 0
    ensures r.mate.state == Idle && r.mate.dx == 0.0 && r.mate.currentColor == r.mate.baseColor
    ensures r.walkResets == v.walkResets - 1
    ensures r.mate.x == v.mate.x && r.mate.y == v.mate.y && r.mate.jumpVelocity == v.mate.jumpVelocity
    ensures Consistent(v) ==> Consistent(r)
  {
    v.(mate := v.mate.(state := Idle, dx := 0.0, currentColor := v.mate.baseColor),
       walkResets := v.walkResets - 1)
  }

  /** `jump()`: start a jump from the current height, unless one is under way. */
  function JumpAction(v: View): (r: View)
    ensures v.mate.state == Jumping ==> r == v
    ensures v.mate.state != Jumping ==>
      r.mate.state == Jumping && r.mate.groundY == v.mate.y && r.mate.y == v.mate.y &&
      r.mate.jumpVelocity == JumpImpulse && r.mate.currentColor == PaleGreen &&
      r.colorResets == v.colorResets + 1
    ensures r.mate.x == v.mate.x && r.dances == v.dances
    ensures Consistent(v) ==> Consistent(r)
  {
    var m := v.mate;
    if m.state != Jumping then
      v.(mate := m.(state := Jumping, jumpVelocity := JumpImpulse, groundY := m.y, currentColor := PaleGreen),
         colorResets := v.colorResets + 1)
    else v
  }

  /** `talk()`: (re)start a two-second speech and schedule a colour reset. */
  function TalkAction(v: View): (r: View)
    ensures r.mate.talkTimer == TalkTime && r.mate.currentColor == Plum
    ensures r.colorResets == v.colorResets + 1
    ensures r.mate.x == v.mate.x && r.mate.y == v.mate.y && r.mate.state == v.mate.state
    ensures Consistent(v) ==> Consistent(r)
  {
    v.(mate := v.mate.(talkTimer := TalkTime, currentColor := Plum), colorResets := v.colorResets + 1)
  }

  /** A colour reset scheduled by `jump()` or `talk()` fires. */
  function ColorTimeout(v: View): (r: View)
    requires v.colorResets > 0
    ensures r.mate.currentColor == r.mate.baseColor && r.colorResets == v.colorResets - 1
    ensures r.mate.state == v.mate.state && r.mate.talkTimer == v.mate.talkTimer
    ensures r.mate == v.mate.(currentColor := v.mate.baseColor)
    ensures r.dances == v.dances && r.walkResets == v.walkResets && r.mouseDown == v.mouseDown
    ensures Consistent(v) ==> Consistent(r)
  {
    v.(mate := v.mate.(currentColor := v.mate.baseColor), colorResets := v.colorResets - 1)
  }

  /** `dance()`: start one more dance interval with a fresh tick counter; running ones go on. */
  function DanceAction(v: View): (r: View)
    ensures r.dances == v.dances + [0]
    ensures r.mate.currentColor == Khaki
    ensures r.mate.x == v.mate.x && r.mate.y == v.mate.y && r.mate.state == v.mate.state
    ensures Consistent(v) ==> Consistent(r)
  {
    v.(mate := v.mate.(currentColor := Khaki), dances := v.dances + [0])
  }

  /** One tick of a dance counter: the next count, or None once the count passes DanceTicks. */
  function Advance(c: nat): (r: Option<nat>)
    ensures r == None <==> c >= DanceTicks
    ensures r != None ==> r.value == c + 1
  {
    if c + 1 > DanceTicks then None else Some(c + 1)
  }

  /** k ticks of one dance counter; an interval that has stopped stays stopped. */
  function Advances(c: nat, k: nat): Option<nat>
  {
    if k == 0 then Some(c)
    else match Advances(c, k - 1)
      case None => None
      case Some(d) => Advance(d)
  }

  /**
   * A dance interval started by `dance()` runs for exactly DanceTicks + 1 =
   * 81 ticks: its counter reads k after k <= 80 ticks, and the 81st tick
   * clears it.
   */
  lemma {:induction false} DanceLifetime(k: nat)
    requires k <= DanceTicks + 1
    ensures k <= DanceTicks ==> Advances(0, k) == Some(k)
    ensures k == DanceTicks + 1 ==> Advances(0, k) == None
  {
    if k > 0 {
      DanceLifetime(k - 1);
    }
  }

  /**
   * One tick of the dance interval at index i: unless the pet is being
   * dragged, shift it by the sine and cosine offsets and clamp it to the
   * canvas; the counter advances either way, and on the tick where it
   * passes DanceTicks the interval is cleared and the colour reset.
   * `sinValue` and `cosValue` stand for `Math.sin(danceCount * 0.3)` and
   * `Math.cos(danceCount * 0.4)`.
   */
  function DanceTickEvent(v: View, i: nat, sinValue: real, cosValue: real, width: real, height: real): (r: View)
    requires i < |v.dances|
    ensures v.mate.isDragging ==> r.mate.x == v.mate.x && r.mate.y == v.mate.y
    ensures !v.mate.isDragging ==>
      r.mate.x == Clamp(v.mate.x + sinValue * 8.0, width - Size) &&
      r.mate.y == Clamp(v.mate.y + cosValue * 4.0, height - Size)
    ensures !v.mate.isDragging && Size <= width ==> 0.0 <= r.mate.x <= width - Size
    ensures !v.mate.isDragging && Size <= height ==> 0.0 <= r.mate.y <= height - Size
    ensures Advance(v.dances[i]) != None ==>
      |r.dances| == |v.dances| && r.dances[i] == v.dances[i] + 1 &&
      (forall j :: 0 <= j < |v.dances| && j != i ==> r.dances[j] == v.dances[j]) &&
      r.mate.currentColor == v.mate.currentColor
    ensures Advance(v.dances[i]) == None ==>
      |r.dances| == |v.dances| - 1 && r.mate.currentColor == r.mate.baseColor &&
      (forall j :: 0 <= j < i ==> r.dances[j] == v.dances[j]) &&
      (forall j :: i <= j < |r.dances| ==> r.dances[j] == v.dances[j + 1])
    ensures r.mate.state == v.mate.state && r.mate.isDragging == v.mate.isDragging
    ensures Consistent(v) ==> Consistent(r)
  {
    var m := v.mate;
    var m' := if m.isDragging then m
      else m.(x := Clamp(m.x + sinValue * 8.0, width - Size), y := Clamp(m.y + cosValue * 4.0, height - Size));
    match Advance(v.dances[i])
    case Some(c) => v.(mate := m', dances := v.dances[i := c])
    case None => v.(mate := m'.(currentColor := m'.baseColor), dances := v.dances[..i] + v.dances[i + 1..])
  }

  // ---------------------------------------------------------------------
  // Pointer handlers
  // ---------------------------------------------------------------------

  /** Whether a pointer event at (px, py) hits the pet's disc. */
  predicate Hits(v: View, px: real, py: real)
  {
    OverCharacter(px, py, v.mate.x, v.mate.y, Size)
  }

  /** `mousedown`: a press over the pet grabs it at once, with no drag threshold, and stops its behaviour. */
  function PressEvent(v: View, px: real, py: real): (r: View)
    ensures Hits(v, px, py) ==>
      r.mouseDown && r.mate.isDragging && r.mate.state == Idle &&
      r.mate.x + r.offsetX == px && r.mate.y + r.offsetY == py
    ensures !Hits(v, px, py) ==> r == v
    ensures r.mate.x == v.mate.x && r.mate.y == v.mate.y && r.dances == v.dances
    ensures Consistent(v) ==> Consistent(r)
  {
    if Hits(v, px, py) then
      v.(mouseDown := true, mate := v.mate.(isDragging := true, state := Idle),
         offsetX := px - v.mate.x, offsetY := py - v.mate.y)
    else v
  }

  /**
   * `mousemove`: while the pet is held it follows the pointer, clamped to
   * the canvas, with its velocity zeroed; otherwise nothing changes.
   */
  function MoveEvent(v: View, px: real, py: real, width: real, height: real): (r: View)
    ensures v.mouseDown && v.mate.isDragging ==> r.mate.dx == 0.0 && r.mate.dy == 0.0
    ensures v.mouseDown && v.mate.isDragging ==>
      r.mate.x == Clamp(px - v.offsetX, width - Size) && r.mate.y == Clamp(py - v.offsetY, height - Size)
    ensures v.mouseDown && v.mate.isDragging && Size <= width ==> 0.0 <= r.mate.x <= width - Size
    ensures v.mouseDown && v.mate.isDragging && Size <= height ==> 0.0 <= r.mate.y <= height - Size
    ensures (v.mouseDown && v.mate.isDragging &&
             0.0 <= px - v.offsetX <= width - Size && 0.0 <= py - v.offsetY <= height - Size) ==>
      r.mate.x + r.offsetX == px && r.mate.y + r.offsetY == py
    ensures !(v.mouseDown && v.mate.isDragging) ==> r == v
    ensures r.mate.state == v.mate.state && r.mouseDown == v.mouseDown && r.mate.isDragging == v.mate.isDragging
    ensures r.offsetX == v.offsetX && r.offsetY == v.offsetY && r.dances == v.dances
    ensures Consistent(v) ==> Consistent(r)
  {
    var m := v.mate;
    if v.mouseDown && m.isDragging then
      v.(mate := m.(x := Clamp(px - v.offsetX, width - Size), y := Clamp(py - v.offsetY, height - Size),
                    dx := 0.0, dy := 0.0))
    else v
  }

  /** `mouseup`: the pointer and the drag are released, whether or not anything was held. */
  function ReleaseEvent(v: View): (r: View)
    ensures !r.mouseDown && !r.mate.isDragging
    ensures r.mate == v.mate.(isDragging := false)
    ensures r.dances == v.dances && r.walkResets == v.walkResets && r.colorResets == v.colorResets
    ensures Consistent(v) ==> Consistent(r)
  {
    v.(mouseDown := false, mate := v.mate.(isDragging := false))
  }

  /** `dblclick`: a double click over the pet makes it talk. */
  function DoubleClickEvent(v: View, px: real, py: real): (r: View)
    ensures Hits(v, px, py) ==> r == TalkAction(v)
    ensures !Hits(v, px, py) ==> r == v
    ensures Consistent(v) ==> Consistent(r)
  {
    if Hits(v, px, py) then TalkAction(v) else v
  }

  // ---------------------------------------------------------------------
  // The per-frame step
  // ---------------------------------------------------------------------

  /** A walking pet takes one step and turns round at either edge of the canvas. */
  function WalkStep(m: Mate, width: real): (r: Mate)
    ensures m.state == Walking ==>
      Walker(r.x, r.dx, r.walkDirection) == WalkFrame(Walker(m.x, m.dx, m.walkDirection), width - Size)
    ensures m.state != Walking ==> r == m
    ensures r.y == m.y && r.state == m.state && r.jumpVelocity == m.jumpVelocity
    ensures Sound(m) ==> Sound(r)
  {
    if m.state == Walking then
      var w := WalkFrame(Walker(m.x, m.dx, m.walkDirection), width - Size);
      m.(x := w.x, dx := w.dx, walkDirection := w.dir)
    else m
  }

  /** A jumping pet integrates one step of its jump; a landing leaves the colour alone. */
  function JumpStep(m: Mate): (r: Mate)
    ensures m.state == Jumping ==>
      var f := JumpFrame(m.y, m.jumpVelocity, m.groundY);
      r.y == f.y && r.jumpVelocity == f.v && r.state == (if f.landed then Idle else Jumping)
    ensures m.state != Jumping ==> r == m
    ensures r.x == m.x && r.dx == m.dx && r.walkDirection == m.walkDirection && r.currentColor == m.currentColor
    ensures Sound(m) ==> Sound(r)
  {
    if m.state == Jumping then
      var f := JumpFrame(m.y, m.jumpVelocity, m.groundY);
      if f.landed then m.(y := f.y, jumpVelocity := f.v, state := Idle)
      else m.(y := f.y, jumpVelocity := f.v)
    else m
  }

  /** The motion half of one animation frame: nothing moves while the pet is dragged. */
  function Move(m: Mate, width: real): (r: Mate)
    ensures m.isDragging || (m.state != Walking && m.state != Jumping) ==> r == m
    ensures m.state == Walking && !m.isDragging ==>
      r.state == Walking && r.y == m.y &&
      Walker(r.x, r.dx, r.walkDirection) == WalkFrame(Walker(m.x, m.dx, m.walkDirection), width - Size)
    ensures m.state == Jumping && !m.isDragging ==>
      var f := JumpFrame(m.y, m.jumpVelocity, m.groundY);
      r.x == m.x && r.y == f.y && r.jumpVelocity == f.v && r.state == (if f.landed then Idle else Jumping)
    ensures r.isDragging == m.isDragging && r.groundY == m.groundY && r.currentColor == m.currentColor
    ensures r.talkTimer == m.talkTimer && r.blinkTimer == m.blinkTimer && r.isBlinking == m.isBlinking
    ensures Sound(m) ==> Sound(r)
  {
    if m.isDragging then m else JumpStep(WalkStep(m, width))
  }

  /** The counter half of one frame: talk countdown, blink, tail wag and ear bounce. */
  function Tick(m: Mate): (r: Mate)
    ensures r.talkTimer == TalkTick(m.talkTimer)
    ensures Blink(r.blinkTimer, r.isBlinking) == BlinkTick(Blink(m.blinkTimer, m.isBlinking))
    ensures r.x == m.x && r.y == m.y && r.dx == m.dx && r.jumpVelocity == m.jumpVelocity
    ensures r.state == m.state && r.walkDirection == m.walkDirection && r.isDragging == m.isDragging
    ensures r.groundY == m.groundY && r.currentColor == m.currentColor
    ensures Sound(m) ==> Sound(r)
  {
    var b := BlinkTick(Blink(m.blinkTimer, m.isBlinking));
    m.(talkTimer := TalkTick(m.talkTimer), blinkTimer := b.timer, isBlinking := b.closed,
       tailWag := m.tailWag + 0.2, earBounce := m.earBounce + 0.15)
  }

  /** The state-changing part of one animation frame. */
  function Frame(m: Mate, width: real): Mate
  {
    Tick(Move(m, width))
  }

  /** n consecutive frames with no other event in between. */
  function Frames(m: Mate, width: real, n: nat): Mate
  {
    if n == 0 then m else Frame(Frames(m, width, n - 1), width)
  }

  /** While the pet is held, frames move nothing and change no behaviour. */
  lemma {:induction false} DraggingFreezesMotion(m: Mate, width: real, n: nat)
    requires m.isDragging
    ensures var r := Frames(m, width, n);
      r.isDragging && r.x == m.x && r.y == m.y && r.dx == m.dx &&
      r.jumpVelocity == m.jumpVelocity && r.state == m.state
  {
    if n > 0 {
      DraggingFreezesMotion(m, width, n - 1);
    }
  }

  /** Frames keep the record sound. */
  lemma {:induction false} FramesKeepSound(m: Mate, width: real, n: nat)
    requires Sound(m)
    ensures Sound(Frames(m, width, n))
  {
    if n > 0 {
      FramesKeepSound(m, width, n - 1);
    }
  }

  lemma {:induction false} FramesTalk(m: Mate, width: real, n: nat)
    requires 0 <= m.talkTimer
    ensures Frames(m, width, n).talkTimer == MaxInt(0, m.talkTimer - n)
  {
    if n > 0 {
      FramesTalk(m, width, n - 1);
    }
  }

  /**
   * After `talk()` the pet speaks for exactly TalkTime = 120 frames, unless
   * it is told to talk again: the countdown is positive for the first 119
   * frames and reaches 0 on the 120th.
   */
  lemma {:induction false} TalkLastsTwoSeconds(v: View, width: real, n: nat)
    ensures var t := Frames(TalkAction(v).mate, width, n).talkTimer;
      (n < TalkTime ==> t == TalkTime - n && t > 0) && (n >= TalkTime ==> t == 0)
  {
    FramesTalk(TalkAction(v).mate, width, n);
  }

  lemma {:induction false} FramesBlink(m: Mate, width: real, n: nat)
    ensures Blink(Frames(m, width, n).blinkTimer, Frames(m, width, n).isBlinking)
         == BlinkTicks(Blink(m.blinkTimer, m.isBlinking), n)
  {
    if n > 0 {
      FramesBlink(m, width, n - 1);
    }
  }

  /** The blink state repeats after every whole window of 191 frames, whatever else the pet does. */
  lemma BlinkRepeats(m: Mate, width: real, n: nat)
    requires Sound(m)
    requires n % (BlinkEnd + 1) == 0
    ensures Frames(m, width, n).blinkTimer == m.blinkTimer
    ensures Frames(m, width, n).isBlinking == m.isBlinking
  {
    FramesBlink(m, width, n);
    BlinkPeriod(Blink(m.blinkTimer, m.isBlinking), n);
  }

  lemma {:induction false} FramesFly(m: Mate, width: real, n: nat)
    requires !m.isDragging && m.state == Jumping
    ensures var f := Airborne(m.y, m.jumpVelocity, m.groundY, n);
      var r := Frames(m, width, n);
      r.y == f.y && r.jumpVelocity == f.v && r.state == (if f.landed then Idle else Jumping) &&
      !r.isDragging && r.groundY == m.groundY && r.currentColor == m.currentColor
  {
    if n > 0 {
      FramesFly(m, width, n - 1);
    }
  }

  /**
   * A jump just started by `jump()` stays above the ground for 38 frames and
   * on the 39th lands exactly on the ground it started from, at rest and
   * idle, provided nothing drags it or ends it meanwhile.
   */
  lemma JumpLandsOnGround(v: View, width: real, n: nat)
    requires !v.mate.isDragging && v.mate.state != Jumping
    requires 1 <= n <= 39
    ensures var r := Frames(JumpAction(v).mate, width, n);
      (n < 39 ==> r.state == Jumping && r.y < v.mate.y) &&
      (n == 39 ==> r.state == Idle && r.y == v.mate.y && r.jumpVelocity == 0.0)
  {
    var m := JumpAction(v).mate;
    FramesFly(m, width, n);
    JumpFromGround(m.groundY, n);
  }

  /**
   * The walk's timeout does not look at what the pet is doing: firing in
   * the middle of a jump it leaves the pet idle in mid-air, and frames then
   * no longer move it.
   */
  lemma {:induction false} WalkTimeoutStopsJump(v: View, width: real, n: nat)
    requires v.walkResets > 0 && v.mate.state == Jumping && v.mate.y < v.mate.groundY
    ensures var r := Frames(WalkTimeout(v).mate, width, n);
      r.state == Idle && r.y == v.mate.y && r.y < r.groundY
  {
    IdleStaysPut(WalkTimeout(v).mate, width, n);
  }

  lemma {:induction false} IdleStaysPut(m: Mate, width: real, n: nat)
    requires m.state == Idle
    ensures var r := Frames(m, width, n);
      r.state == Idle && r.x == m.x && r.y == m.y && r.groundY == m.groundY
  {
    if n > 0 {
      IdleStaysPut(m, width, n - 1);
    }
  }

  lemma {:induction false} FramesWalk(m: Mate, width: real, n: nat)
    requires !m.isDragging && m.state == Walking
    ensures var r := Frames(m, width, n);
      r.state == Walking && !r.isDragging &&
      Walker(r.x, r.dx, r.walkDirection) == WalkFrames(Walker(m.x, m.dx, m.walkDirection), width - Size, n)
  {
    if n > 0 {
      FramesWalk(m, width, n - 1);
    }
  }

  /**
   * A walk that starts on a canvas at least as wide as the pet never strays
   * more than one step past either edge; the bounce does not clamp.
   */
  lemma WalkingStaysNearCanvas(m: Mate, width: real, n: nat)
    requires Sound(m) && !m.isDragging && m.state == Walking
    requires Paced(Walker(m.x, m.dx, m.walkDirection))
    requires Size <= width && 0.0 <= m.x <= width - Size
    ensures -WalkSpeed <= Frames(m, width, n).x <= width - Size + WalkSpeed
  {
    FramesWalk(m, width, n);
    WalkStaysNearCanvas(Walker(m.x, m.dx, m.walkDirection), width - Size, n);
  }

  /**
   * `walk()` is not refused while the pet is held, and the next drag move
   * zeroes `dx` without leaving the walking state: after the release the
   * pet stays put however many frames pass, until the walk's timeout.
   */
  lemma WalkDuringDragStalls(v: View, px: real, py: real, width: real, height: real, n: nat)
    requires v.mouseDown && v.mate.isDragging
    ensures var m := ReleaseEvent(MoveEvent(WalkAction(v), px, py, width, height)).mate;
      m.state == Walking && m.dx == 0.0 &&
      Frames(m, width, n).state == Walking && Frames(m, width, n).x == m.x
  {
    var m := ReleaseEvent(MoveEvent(WalkAction(v), px, py, width, height)).mate;
    StalledWalk(m, width, n);
  }

  lemma {:induction false} StalledWalk(m: Mate, width: real, n: nat)
    requires !m.isDragging && m.state == Walking && m.dx == 0.0
    ensures var r := Frames(m, width, n);
      r.state == Walking && r.x == m.x && r.dx == 0.0 && !r.isDragging
  {
    if n > 0 {
      StalledWalk(m, width, n - 1);
    }
  }

  /** The speech bubble's text while talking: an entry of the pet's list, changing every 25 frames. */
  function Speech(m: Mate): (s: string)
    requires 0 < m.talkTimer
    ensures s in PetMessages
    ensures m.talkTimer < 150 ==> s == PetMessages[m.talkTimer / MessagePeriod]
  {
    PetMessages[MessageIndex(m.talkTimer)]
  }

  // ---------------------------------------------------------------------
  // The view, updated in place
  // ---------------------------------------------------------------------

  class CharacterView {
    var mate: Mate
    var mouseDown: bool
    var offsetX: real
    var offsetY: real
    var dances: seq<nat>
    var walkResets: nat
    var colorResets: nat

    ghost function Snapshot(): View
      reads this
    {
      View(mate, mouseDown, offsetX, offsetY, dances, walkResets, colorResets)
    }

    ghost predicate Valid()
      reads this
    {
      Consistent(Snapshot())
    }

    constructor ()
      ensures Snapshot() == Initial() && Valid()
    {
      mate := Initial().mate;
      mouseDown, offsetX, offsetY := false, 0.0, 0.0;
      dances, walkResets, colorResets := [], 0, 0;
    }

    method Walk()
      requires Valid()
      modifies this`mate, this`walkResets
      ensures Valid() && Snapshot() == WalkAction(old(Snapshot()))
    {
      mate := mate.(state := Walking, dx := WalkSpeed * mate.walkDirection as real, currentColor := SkyBlue);
      walkResets := walkResets + 1;
    }

    /** The timeout scheduled by `Walk`. */
    method WalkResetFires()
      requires Valid() && walkResets > 0
      modifies this`mate, this`walkResets
      ensures Valid() && Snapshot() == WalkTimeout(old(Snapshot()))
    {
      mate := mate.(state := Idle, dx := 0.0, currentColor := mate.baseColor);
      walkResets := walkResets - 1;
    }

    method Jump()
      requires Valid()
      modifies this`mate, this`colorResets
      ensures Valid() && Snapshot() == JumpAction(old(Snapshot()))
    {
      if mate.state != Jumping {
        mate := mate.(state := Jumping, jumpVelocity := JumpImpulse, groundY := mate.y, currentColor := PaleGreen);
        colorResets := colorResets + 1;
      }
    }

    method Talk()
      requires Valid()
      modifies this`mate, this`colorResets
      ensures Valid() && Snapshot() == TalkAction(old(Snapshot()))
    {
      mate := mate.(talkTimer := TalkTime, currentColor := Plum);
      colorResets := colorResets + 1;
    }

    /** A timeout scheduled by `Jump` or `Talk`. */
    method ColorResetFires()
      requires Valid() && colorResets > 0
      modifies this`mate, this`colorResets
      ensures Valid() && Snapshot() == ColorTimeout(old(Snapshot()))
    {
      mate := mate.(currentColor := mate.baseColor);
      colorResets := colorResets - 1;
    }

    method Dance()
      requires Valid()
      modifies this`mate, this`dances
      ensures Valid() && Snapshot() == DanceAction(old(Snapshot()))
    {
      mate := mate.(currentColor := Khaki);
      dances := dances + [0];
    }

    /** The callback of the dance interval at index i. */
    method DanceTick(i: nat, sinValue: real, cosValue: real, width: real, height: real)
      requires Valid() && i < |dances|
      modifies this`mate, this`dances
      ensures Valid() && Snapshot() == DanceTickEvent(old(Snapshot()), i, sinValue, cosValue, width, height)
    {
      var m := mate;
      if !m.isDragging {
        m := m.(x := m.x + sinValue * 8.0, y := m.y + cosValue * 4.0);
        m := m.(x := Max(0.0, Min(width - Size, m.x)), y := Max(0.0, Min(height - Size, m.y)));
      }
      var count := dances[i] + 1;
      if count > DanceTicks {
        dances := dances[..i] + dances[i + 1..];
        m := m.(currentColor := m.baseColor);
      } else {
        dances := dances[i := count];
      }
      mate := m;
    }

    method MouseDown(px: real, py: real)
      requires Valid()
      modifies this`mate, this`mouseDown, this`offsetX, this`offsetY
      ensures Valid() && Snapshot() == PressEvent(old(Snapshot()), px, py)
    {
      if OverCharacter(px, py, mate.x, mate.y, Size) {
        mouseDown := true;
        mate := mate.(isDragging := true, state := Idle);
        offsetX := px - mate.x;
        offsetY := py - mate.y;
      }
    }

    method MouseMove(px: real, py: real, width: real, height: real)
      requires Valid()
      modifies this`mate
      ensures Valid() && Snapshot() == MoveEvent(old(Snapshot()), px, py, width, height)
    {
      if mouseDown && mate.isDragging {
        var m := mate.(x := px - offsetX, y := py - offsetY);
        m := m.(x := Max(0.0, Min(width - Size, m.x)), y := Max(0.0, Min(height - Size, m.y)));
        mate := m.(dx := 0.0, dy := 0.0);
      }
    }

    method MouseUp()
      requires Valid()
      modifies this`mate, this`mouseDown
      ensures Valid() && Snapshot() == ReleaseEvent(old(Snapshot()))
    {
      mouseDown := false;
      mate := mate.(isDragging := false);
    }

    method DoubleClick(px: real, py: real)
      requires Valid()
      modifies this`mate, this`colorResets
      ensures Valid() && Snapshot() == DoubleClickEvent(old(Snapshot()), px, py)
    {
      if OverCharacter(px, py, mate.x, mate.y, Size) {
        Talk();
      }
    }

    /** The state-changing half of `animate()`: only the record changes. */
    method Animate(width: real)
      requires Valid()
      modifies this`mate
      ensures Valid() && mate == Frame(old(mate), width)
    {
      MoveMate(width);
      AdvanceCounters();
    }

    /** The walk and jump part of `animate()`. */
    method MoveMate(width: real)
      requires Valid()
      modifies this`mate
      ensures Valid() && mate == Move(old(mate), width)
    {
      if !mate.isDragging {
        WalkMate(width);
        JumpMate();
      }
    }

    /** The walking branch of `animate()`, worked on a copy of the record that is stored back. */
    method WalkMate(width: real)
      requires Valid()
      modifies this`mate
      ensures Valid() && mate == WalkStep(old(mate), width)
    {
      var m := mate;
      if m.state == Walking {
        m := m.(x := m.x + m.dx);
        if m.x <= 0.0 || m.x >= width - Size {
          m := m.(dx := -m.dx, walkDirection := -m.walkDirection);
        }
      }
      mate := m;
    }

    /** The jumping branch of `animate()`, worked on a copy of the record that is stored back. */
    method JumpMate()
      requires Valid()
      modifies this`mate
      ensures Valid() && mate == JumpStep(old(mate))
    {
      var m := mate;
      if m.state == Jumping {
        m := m.(y := m.y + m.jumpVelocity);
        m := m.(jumpVelocity := m.jumpVelocity + Gravity);
        if m.y >= m.groundY {
          m := m.(y := m.groundY, jumpVelocity := 0.0, state := Idle);
        }
      }
      mate := m;
    }

    /** The counter part of `animate()`: talk countdown, blink, tail wag and ear bounce. */
    method AdvanceCounters()
      requires Valid()
      modifies this`mate
      ensures Valid() && mate == Tick(old(mate))
    {
      var m := mate;
      m := m.(talkTimer := MaxInt(0, m.talkTimer - 1));
      m := m.(blinkTimer := m.blinkTimer + 1);
      m := m.(tailWag := m.tailWag + 0.2);
      m := m.(earBounce := m.earBounce + 0.15);
      if m.blinkTimer > BlinkStart {
        m := m.(isBlinking := true);
        if m.blinkTimer > BlinkEnd {
          m := m.(isBlinking := false, blinkTimer := 0);
        }
      }
      mate := m;
    }
  }
}
