/**
 * The menu and keyboard variant of the character view (the human "boy/girl"
 * mate of the installer build). The view keeps one record for the character
 * (`mate`) and a few view-wide variables (pointer held, grab offset, whether
 * a drag happened, whether the pointer rests on something interactive,
 * whether the context menu is shown, the dance interval). Input handlers,
 * the actions walk/jump/talk/dance/switchCharacter and the per-frame
 * animation step change them in place.
 *
 * `View` is a value snapshot of all of that state; every handler is first
 * specified as a function on snapshots, and the class `CharacterView` at the
 * end updates its variables in place and proves that it does what the
 * function says. Callbacks scheduled with a timeout are event methods that
 * may run only while such a callback is pending; the dance interval's
 * callback may run while the interval is live.
 */
module MenuMate {
  import opened Motion

  datatype CharType = Boy | Girl

  /** The talk countdown that `talk()` sets: talking is effectively unbounded. */
  const TalkForever: int := 9999
  /** The largest happiness any action sets (the dance). */
  const MaxHappiness: real := 0.6

  const BoyMessages: seq<string> := ["Hey there!", "What's up?", "Let's play!", "I'm happy!", "Cool!", "Awesome!"]
  const GirlMessages: seq<string> := ["Hi cutie!", "How are you?", "Let's have fun!", "I love this!", "So cute!", "Yay!"]

  function RestShirt(t: CharType): Color { if t == Boy then RoyalBlue else HotPink }
  function WalkShirt(t: CharType): Color { if t == Boy then SkyBlue else LightPink }
  function HairOf(t: CharType): Color { if t == Boy then SaddleBrown else Gold }
  function Messages(t: CharType): seq<string> { if t == Boy then BoyMessages else GirlMessages }

  /** The character record. */
  datatype Mate = Mate(
    x: real, y: real, dx: real, dy: real,
    charType: CharType, hairColor: Color, shirtColor: Color,
    state: Behavior, isDragging: bool, walkDirection: int,
    jumpVelocity: real, groundY: real,
    talkTimer: int, blinkTimer: int, isBlinking: bool,
    walkCycle: real, happiness: real)

  /** Snapshot of the character record and the view-wide variables. */
  datatype View = View(
    mate: Mate,
    mouseDown: bool, offsetX: real, offsetY: real, hasDragged: bool,
    overInteractive: bool, menuOpen: bool,
    dancing: bool, danceCount: nat,
    // callbacks scheduled with a timeout and not yet run
    interactiveResets: nat, happinessResets: nat)

  /** The view as it starts up. */
  function Initial(): (v: View)
    ensures Consistent(v)
  {
    View(Mate(200.0, 200.0, 0.0, 0.0, Boy, SaddleBrown, RoyalBlue, Idle, false, 1, 0.0, 200.0,
              0, 0, false, 0.0, 0.0),
         false, 0.0, 0.0, false, false, false, false, 0, 0, 0)
  }

  /** What every frame keeps true of the character record. */
  predicate Sound(m: Mate)
  {
    && 0 <= m.talkTimer <= TalkForever
    && BlinkPhase(Blink(m.blinkTimer, m.isBlinking))
    && 0.0 <= m.happiness <= MaxHappiness
    && (m.walkDirection == 1 || m.walkDirection == -1)
    && (m.state == Walking ==> Paced(Walker(m.x, m.dx, m.walkDirection)))
    && m.hairColor == HairOf(m.charType)
  }

  /** What every handler, action and frame keeps true of the view. */
  predicate Consistent(v: View)
  {
    Sound(v.mate) && (v.mate.isDragging ==> v.mouseDown)
  }

  // ---------------------------------------------------------------------
  // The context menu
  // ---------------------------------------------------------------------

  /** `hideContextMenu()`: close a shown menu and schedule the reset of the interactive flag. */
  function HideMenu(v: View): (r: View)
    ensures !r.menuOpen
    ensures v.menuOpen ==> r.interactiveResets == v.interactiveResets + 1
    ensures !v.menuOpen ==> r == v
    ensures r.mate == v.mate && r.mouseDown == v.mouseDown
    ensures Consistent(v) ==> Consistent(r)
  {
    if v.menuOpen then v.(menuOpen := false, interactiveResets := v.interactiveResets + 1) else v
  }

  // ---------------------------------------------------------------------
  // Actions
  // ---------------------------------------------------------------------

  /** `walk()`: a toggle between walking and standing. */
  function WalkAction(v: View): (r: View)
    ensures v.mate.state == Walking ==> r.mate.state == Idle && r.mate.dx == 0.0 && r.mate.happiness == 0.0
    ensures v.mate.state != Walking ==>
      r.mate.state == Walking && r.mate.dx == WalkSpeed * v.mate.walkDirection as real
    ensures r.mate.x == v.mate.x && r.mate.y == v.mate.y && r.mate.walkDirection == v.mate.walkDirection
    ensures !r.menuOpen
    ensures Consistent(v) ==> Consistent(r)
  {
    var m := v.mate;
    var m' := if m.state == Walking
      then m.(state := Idle, dx := 0.0, shirtColor := RestShirt(m.charType), happiness := 0.0)
      else m.(state := Walking, dx := WalkSpeed * m.walkDirection as real,
              shirtColor := WalkShirt(m.charType), happiness := 0.3);
    HideMenu(v.(mate := m'))
  }

  /** `jump()`: start a jump from the current height, unless one is under way. */
  function JumpAction(v: View): (r: View)
    ensures v.mate.state == Jumping ==> r == HideMenu(v)
    ensures v.mate.state != Jumping ==>
      r.mate.state == Jumping && r.mate.groundY == v.mate.y && r.mate.y == v.mate.y &&
      r.mate.jumpVelocity == JumpImpulse
    ensures r.mate.x == v.mate.x && !r.menuOpen
    ensures Consistent(v) ==> Consistent(r)
  {
    var m := v.mate;
    if m.state != Jumping then
      HideMenu(v.(mate := m.(state := Jumping, jumpVelocity := JumpImpulse, groundY := m.y,
                             shirtColor := PaleGreen, happiness := 0.5)))
    else HideMenu(v)
  }

  /** `talk()`: a toggle between silence and an effectively endless countdown. */
  function TalkAction(v: View): (r: View)
    ensures r.mate.talkTimer == (if v.mate.talkTimer > 0 then 0 else TalkForever)
    ensures r.mate.x == v.mate.x && r.mate.y == v.mate.y && r.mate.state == v.mate.state
    ensures !r.menuOpen
    ensures Consistent(v) ==> Consistent(r)
  {
    var m := v.mate;
    var m' := if m.talkTimer > 0
      then m.(talkTimer := 0, shirtColor := RestShirt(m.charType), happiness := 0.0)
      else m.(talkTimer := TalkForever, shirtColor := Plum, happiness := 0.4);
    HideMenu(v.(mate := m'))
  }

  /** `dance()`: clear a live dance interval, or start one with a fresh tick counter. */
  function DanceAction(v: View): (r: View)
    ensures r.dancing == !v.dancing
    ensures r.dancing ==> r.danceCount == 0 && r.mate.happiness == MaxHappiness
    ensures r.mate.x == v.mate.x && r.mate.y == v.mate.y && r.mate.state == v.mate.state
    ensures !r.menuOpen
    ensures Consistent(v) ==> Consistent(r)
  {
    var m := v.mate;
    var r := if v.dancing
      then v.(dancing := false, mate := m.(shirtColor := RestShirt(m.charType), happiness := 0.0))
      else v.(mate := m.(shirtColor := Khaki, happiness := MaxHappiness), danceCount := 0, dancing := true);
    HideMenu(r)
  }

  /**
   * One tick of the dance interval: unless the character is being dragged,
   * shift it by the sine and cosine offsets and clamp it to the canvas; the
   * tick counter advances either way. `sinValue` and `cosValue` stand for
   * `Math.sin(danceCount * 0.3)` and `Math.cos(danceCount * 0.4)`.
   */
  function DanceTickEvent(v: View, sinValue: real, cosValue: real, width: real, height: real): (r: View)
    requires v.dancing
    ensures r.danceCount == v.danceCount + 1
    ensures v.mate.isDragging ==> r.mate == v.mate
    ensures !v.mate.isDragging ==>
      r.mate.x == Clamp(v.mate.x + sinValue * 8.0, width - Size) &&
      r.mate.y == Clamp(v.mate.y + cosValue * 4.0, height - Size)
    ensures !v.mate.isDragging && Size <= width ==> 0.0 <= r.mate.x <= width - Size
    ensures !v.mate.isDragging && Size <= height ==> 0.0 <= r.mate.y <= height - Size
    ensures r.mate.state == v.mate.state && r.dancing
    ensures Consistent(v) ==> Consistent(r)
  {
    var m := v.mate;
    var m' := if m.isDragging then m
      else m.(x := Clamp(m.x + sinValue * 8.0, width - Size), y := Clamp(m.y + cosValue * 4.0, height - Size));
    v.(mate := m', danceCount := v.danceCount + 1)
  }

  /** `switchCharacter()`: swap between the two palettes and schedule the happiness reset. */
  function SwitchAction(v: View): (r: View)
    ensures r.mate.charType != v.mate.charType
    ensures r.mate.shirtColor == RestShirt(r.mate.charType) && r.mate.hairColor == HairOf(r.mate.charType)
    ensures r.happinessResets == v.happinessResets + 1
    ensures r.mate.x == v.mate.x && r.mate.y == v.mate.y && r.mate.state == v.mate.state
    ensures !r.menuOpen
    ensures Consistent(v) ==> Consistent(r)
  {
    var m := v.mate;
    var t := if m.charType == Boy then Girl else Boy;
    HideMenu(v.(mate := m.(charType := t, shirtColor := RestShirt(t), hairColor := HairOf(t), happiness := 0.5),
                happinessResets := v.happinessResets + 1))
  }

  /** The timeout scheduled by `switchCharacter()` fires: happiness drops to zero. */
  function HappinessTimeout(v: View): (r: View)
    requires v.happinessResets > 0
    ensures r.mate.happiness == 0.0 && r.happinessResets == v.happinessResets - 1
    ensures Consistent(v) ==> Consistent(r)
  {
    v.(mate := v.mate.(happiness := 0.0), happinessResets := v.happinessResets - 1)
  }

  /** A timeout scheduled by a release or by hiding the menu fires. */
  function InteractiveTimeout(v: View): (r: View)
    requires v.interactiveResets > 0
    ensures r.interactiveResets == v.interactiveResets - 1
    ensures r.overInteractive == (v.overInteractive && v.mouseDown)
    ensures r.mate == v.mate && r.mouseDown == v.mouseDown && r.menuOpen == v.menuOpen
    ensures Consistent(v) ==> Consistent(r)
  {
    var r := v.(interactiveResets := v.interactiveResets - 1);
    if !v.mouseDown then r.(overInteractive := false) else r
  }

  /** The switch character and the dance are toggles: doing either twice restores what it toggles. */
  lemma SwitchAndDanceTwice(v: View)
    requires Consistent(v)
    ensures SwitchAction(SwitchAction(v)).mate.charType == v.mate.charType
    ensures SwitchAction(SwitchAction(v)).mate.hairColor == v.mate.hairColor
    ensures DanceAction(DanceAction(v)).dancing == v.dancing
  {
  }

  /** Walking and talking are toggles: from rest or from their own state, doing them twice comes back. */
  lemma WalkAndTalkTwice(v: View)
    ensures v.mate.state == Idle || v.mate.state == Walking ==>
      WalkAction(WalkAction(v)).mate.state == v.mate.state
    ensures v.mate.talkTimer == 0 || v.mate.talkTimer == TalkForever ==>
      TalkAction(TalkAction(v)).mate.talkTimer == v.mate.talkTimer
  {
  }

  // ---------------------------------------------------------------------
  // Pointer handlers
  // ---------------------------------------------------------------------

  /** Whether a pointer event at (px, py) hits the character's disc. */
  predicate Hits(v: View, px: real, py: real)
  {
    OverCharacter(px, py, v.mate.x, v.mate.y, Size)
  }

  /**
   * `mousedown`: a primary-button press over the character records the grab
   * offset and holds the pointer; it does not start a drag by itself.
   */
  function PressEvent(v: View, px: real, py: real, button: int): (r: View)
    ensures r.mate == v.mate
    ensures r.mouseDown <==> v.mouseDown || (button == 0 && Hits(v, px, py))
    ensures button == 0 && Hits(v, px, py) ==>
      !r.hasDragged && r.mate.x + r.offsetX == px && r.mate.y + r.offsetY == py &&
      r.overInteractive && !r.menuOpen
    ensures !(button == 0 && Hits(v, px, py)) ==> r == v
    ensures Consistent(v) ==> Consistent(r)
  {
    if button == 0 && Hits(v, px, py) then
      HideMenu(v.(mouseDown := true, hasDragged := false, offsetX := px - v.mate.x, offsetY := py - v.mate.y,
                  overInteractive := true))
    else v
  }

  /** Whether the pointer is held and has moved past the drag threshold from the grab point. */
  predicate DragsAway(v: View, px: real, py: real)
  {
    v.mouseDown && BeyondDragThreshold(px, py, v.mate.x + v.offsetX, v.mate.y + v.offsetY)
  }

  /**
   * `mousemove`: while the pointer is held and has moved more than the drag
   * threshold from the grab point, the character is dragged: its behaviour
   * stops, its velocity is zeroed and it follows the pointer, clamped to the
   * canvas. Without the pointer held, only the interactive flag follows the
   * hover; `overMenuRect` is whether the pointer lies in the menu's box.
   */
  function MoveEvent(v: View, px: real, py: real, overMenuRect: bool, width: real, height: real): (r: View)
    ensures DragsAway(v, px, py) ==>
      r.mate.isDragging && r.hasDragged && r.mate.state == Idle && r.mate.dx == 0.0 && r.mate.dy == 0.0
    ensures DragsAway(v, px, py) ==>
      r.mate.x == Clamp(px - v.offsetX, width - Size) && r.mate.y == Clamp(py - v.offsetY, height - Size)
    ensures !v.mouseDown ==> r == v.(overInteractive := r.overInteractive)
    ensures DragsAway(v, px, py) && Size <= width ==> 0.0 <= r.mate.x <= width - Size
    ensures DragsAway(v, px, py) && Size <= height ==> 0.0 <= r.mate.y <= height - Size
    ensures DragsAway(v, px, py) && 0.0 <= px - v.offsetX <= width - Size && 0.0 <= py - v.offsetY <= height - Size ==>
      r.mate.x + r.offsetX == px && r.mate.y + r.offsetY == py
    ensures !DragsAway(v, px, py) ==> r.mate == v.mate
    ensures v.mouseDown && !DragsAway(v, px, py) ==> r == v
    ensures r.offsetX == v.offsetX && r.offsetY == v.offsetY && r.interactiveResets == v.interactiveResets
    ensures !v.mouseDown ==> (r.overInteractive <==> Hits(v, px, py) || (v.menuOpen && overMenuRect))
    ensures r.mouseDown == v.mouseDown && r.menuOpen == v.menuOpen
    ensures Consistent(v) ==> Consistent(r)
  {
    var m := v.mate;
    if v.mouseDown then
      if DragsAway(v, px, py) then
        v.(hasDragged := true,
           mate := m.(isDragging := true, state := Idle, dx := 0.0, dy := 0.0,
                      x := Clamp(px - v.offsetX, width - Size), y := Clamp(py - v.offsetY, height - Size)))
      else v
    else v.(overInteractive := Hits(v, px, py) || (v.menuOpen && overMenuRect))
  }

  /** `mouseup`: a held pointer is released, the drag ends and the interactive reset is scheduled. */
  function ReleaseEvent(v: View): (r: View)
    ensures !r.mouseDown
    ensures Consistent(v) ==> !r.mate.isDragging
    ensures v.mouseDown ==> r.interactiveResets == v.interactiveResets + 1
    ensures !v.mouseDown ==> r == v
    ensures r.mate.x == v.mate.x && r.mate.y == v.mate.y && r.mate.state == v.mate.state
    ensures Consistent(v) ==> Consistent(r)
  {
    if v.mouseDown then
      v.(mouseDown := false, mate := v.mate.(isDragging := false), interactiveResets := v.interactiveResets + 1)
    else v
  }

  /** `contextmenu`: the menu opens only over the character and only if the last press did not drag. */
  function ContextMenuEvent(v: View, px: real, py: real): (r: View)
    ensures r.menuOpen <==> v.menuOpen || (Hits(v, px, py) && !v.hasDragged)
    ensures v.hasDragged ==> r == v
    ensures r.mate == v.mate && r.mouseDown == v.mouseDown
    ensures Consistent(v) ==> Consistent(r)
  {
    if Hits(v, px, py) && !v.hasDragged then v.(menuOpen := true, overInteractive := true)
    else v
  }

  /** `dblclick`: a double click over the character toggles talking. */
  function DoubleClickEvent(v: View, px: real, py: real): (r: View)
    ensures Hits(v, px, py) ==> r == TalkAction(v)
    ensures !Hits(v, px, py) ==> r == v
    ensures Consistent(v) ==> Consistent(r)
  {
    if Hits(v, px, py) then TalkAction(v) else v
  }

  /** A click anywhere outside the shown menu hides it. */
  function DocumentClickEvent(v: View, onMenu: bool): (r: View)
    ensures !onMenu ==> !r.menuOpen
    ensures onMenu ==> r == v
    ensures r.mate == v.mate && r.mouseDown == v.mouseDown
    ensures Consistent(v) ==> Consistent(r)
  {
    if !onMenu && v.menuOpen then HideMenu(v) else v
  }

  // ---------------------------------------------------------------------
  // Keyboard shortcuts
  // ---------------------------------------------------------------------

  datatype Command = WalkKey | JumpKey | TalkKey | DanceKey | SwitchKey | CloseKey | NoKey

  /** `keydown`: letters in either case select an action; Escape closes the window. */
  function Shortcut(key: string): (c: Command)
    ensures c == WalkKey <==> key == "w" || key == "W"
    ensures c == JumpKey <==> key == "j" || key == "J"
    ensures c == TalkKey <==> key == "t" || key == "T"
    ensures c == DanceKey <==> key == "d" || key == "D"
    ensures c == SwitchKey <==> key == "s" || key == "S"
    ensures c == CloseKey <==> key == "Escape"
  {
    if key == "w" || key == "W" then WalkKey
    else if key == "j" || key == "J" then JumpKey
    else if key == "t" || key == "T" then TalkKey
    else if key == "d" || key == "D" then DanceKey
    else if key == "s" || key == "S" then SwitchKey
    else if key == "Escape" then CloseKey
    else NoKey
  }

  /** The state after a key press; closing the window is left to the caller. */
  function KeyEvent(v: View, key: string): (r: View)
    ensures Shortcut(key) == WalkKey ==> r == WalkAction(v)
    ensures Shortcut(key) == JumpKey ==> r == JumpAction(v)
    ensures Shortcut(key) == TalkKey ==> r == TalkAction(v)
    ensures Shortcut(key) == DanceKey ==> r == DanceAction(v)
    ensures Shortcut(key) == SwitchKey ==> r == SwitchAction(v)
    ensures Shortcut(key) == CloseKey || Shortcut(key) == NoKey ==> r == v
    ensures Consistent(v) ==> Consistent(r)
  {
    match Shortcut(key)
    case WalkKey => WalkAction(v)
    case JumpKey => JumpAction(v)
    case TalkKey => TalkAction(v)
    case DanceKey => DanceAction(v)
    case SwitchKey => SwitchAction(v)
    case _ => v
  }

  // ---------------------------------------------------------------------
  // The per-frame step
  // ---------------------------------------------------------------------

  /** A walking character takes one step and turns round at either edge of the canvas. */
  function WalkStep(m: Mate, width: real): (r: Mate)
    ensures m.state == Walking ==>
      Walker(r.x, r.dx, r.walkDirection) == WalkFrame(Walker(m.x, m.dx, m.walkDirection), width - Size)
    ensures m.state != Walking ==> r == m
    ensures r.y == m.y && r.state == m.state && r.jumpVelocity == m.jumpVelocity && r.happiness == m.happiness
    ensures Sound(m) ==> Sound(r)
  {
    if m.state == Walking then
      var w := WalkFrame(Walker(m.x, m.dx, m.walkDirection), width - Size);
      m.(x := w.x, dx := w.dx, walkDirection := w.dir)
    else m
  }

  /** A jumping character integrates one step of its jump; a landing resets the shirt and the happiness. */
  function JumpStep(m: Mate): (r: Mate)
    ensures m.state == Jumping ==>
      var f := JumpFrame(m.y, m.jumpVelocity, m.groundY);
      r.y == f.y && r.jumpVelocity == f.v && r.state == (if f.landed then Idle else Jumping) &&
      (f.landed ==> r.happiness == 0.0 && r.shirtColor == RestShirt(m.charType))
    ensures m.state != Jumping ==> r == m
    ensures r.x == m.x && r.dx == m.dx && r.walkDirection == m.walkDirection
    ensures Sound(m) ==> Sound(r)
  {
    if m.state == Jumping then
      var f := JumpFrame(m.y, m.jumpVelocity, m.groundY);
      if f.landed then
        m.(y := f.y, jumpVelocity := f.v, state := Idle, shirtColor := RestShirt(m.charType), happiness := 0.0)
      else m.(y := f.y, jumpVelocity := f.v)
    else m
  }

  /**
   * The motion half of one animation frame on a canvas of the given width:
   * unless dragged, a walking character walks and bounces and a jumping one
   * integrates its jump.
   */
  function Move(m: Mate, width: real): (r: Mate)
    ensures m.isDragging || (m.state != Walking && m.state != Jumping) ==> r == m
    ensures m.state == Walking && !m.isDragging ==>
      r.state == Walking && r.y == m.y &&
      Walker(r.x, r.dx, r.walkDirection) == WalkFrame(Walker(m.x, m.dx, m.walkDirection), width - Size)
    ensures m.state == Jumping && !m.isDragging ==>
      var f := JumpFrame(m.y, m.jumpVelocity, m.groundY);
      r.x == m.x && r.y == f.y && r.jumpVelocity == f.v && r.state == (if f.landed then Idle else Jumping) &&
      (f.landed ==> r.happiness == 0.0)
    ensures r.isDragging == m.isDragging && r.groundY == m.groundY && r.charType == m.charType
    ensures r.hairColor == m.hairColor && r.talkTimer == m.talkTimer && r.blinkTimer == m.blinkTimer && r.isBlinking == m.isBlinking
    ensures Sound(m) ==> Sound(r)
  {
    if m.isDragging then m else JumpStep(WalkStep(m, width))
  }

  /** The counter half of one frame: talk countdown, blink, walk cycle and happiness decay. */
  function Tick(m: Mate): (r: Mate)
    ensures r.talkTimer == TalkTick(m.talkTimer)
    ensures Blink(r.blinkTimer, r.isBlinking) == BlinkTick(Blink(m.blinkTimer, m.isBlinking))
    ensures r.happiness == Decay(m.happiness)
    ensures r.x == m.x && r.y == m.y && r.dx == m.dx && r.jumpVelocity == m.jumpVelocity
    ensures r.state == m.state && r.walkDirection == m.walkDirection && r.isDragging == m.isDragging
    ensures r.groundY == m.groundY && r.charType == m.charType && r.hairColor == m.hairColor
    ensures Sound(m) ==> Sound(r)
  {
    var b := BlinkTick(Blink(m.blinkTimer, m.isBlinking));
    m.(talkTimer := TalkTick(m.talkTimer), blinkTimer := b.timer, isBlinking := b.closed,
       walkCycle := m.walkCycle + 0.2, happiness := Decay(m.happiness))
  }

  /** The state-changing part of one animation frame. */
  function Frame(m: Mate, width: real): Mate
  {
    Tick(Move(m, width))
  }

  /** n consecutive frames with no other event in between. */
  function Frames(m: Mate, width: real, n: nat): Mate
  {
    if n == 0 then m else Frame(Frames(m, width, n - 1), width)
  }

  /** While the character is held in a drag, frames move nothing and change no behaviour. */
  lemma {:induction false} DraggingFreezesMotion(m: Mate, width: real, n: nat)
    requires m.isDragging
    ensures var r := Frames(m, width, n);
      r.isDragging && r.x == m.x && r.y == m.y && r.dx == m.dx &&
      r.jumpVelocity == m.jumpVelocity && r.state == m.state
  {
    if n > 0 {
      DraggingFreezesMotion(m, width, n - 1);
    }
  }

  /** Frames keep the record sound. */
  lemma {:induction false} FramesKeepSound(m: Mate, width: real, n: nat)
    requires Sound(m)
    ensures Sound(Frames(m, width, n))
  {
    if n > 0 {
      FramesKeepSound(m, width, n - 1);
    }
  }

  /** The talk countdown drops by one per frame and stops at zero. */
  lemma {:induction false} TalkFallsSilent(m: Mate, width: real, n: nat)
    requires 0 <= m.talkTimer
    ensures Frames(m, width, n).talkTimer == MaxInt(0, m.talkTimer - n)
  {
    if n > 0 {
      TalkFallsSilent(m, width, n - 1);
    }
  }

  lemma {:induction false} FramesBlink(m: Mate, width: real, n: nat)
    ensures Blink(Frames(m, width, n).blinkTimer, Frames(m, width, n).isBlinking)
         == BlinkTicks(Blink(m.blinkTimer, m.isBlinking), n)
  {
    if n > 0 {
      FramesBlink(m, width, n - 1);
    }
  }

  /** The blink state repeats after every whole window of 191 frames, whatever else the character does. */
  lemma BlinkRepeats(m: Mate, width: real, n: nat)
    requires Sound(m)
    requires n % (BlinkEnd + 1) == 0
    ensures Frames(m, width, n).blinkTimer == m.blinkTimer
    ensures Frames(m, width, n).isBlinking == m.isBlinking
  {
    FramesBlink(m, width, n);
    BlinkPeriod(Blink(m.blinkTimer, m.isBlinking), n);
  }

  lemma {:induction false} FramesFly(m: Mate, width: real, n: nat)
    requires !m.isDragging && m.state == Jumping
    ensures var f := Airborne(m.y, m.jumpVelocity, m.groundY, n);
      var r := Frames(m, width, n);
      r.y == f.y && r.jumpVelocity == f.v && r.state == (if f.landed then Idle else Jumping) &&
      !r.isDragging && r.groundY == m.groundY
  {
    if n > 0 {
      FramesFly(m, width, n - 1);
    }
  }

  /**
   * A jump just started (as `jump()` leaves it) stays in the air, above the
   * ground, for 38 frames and on the 39th lands exactly on the ground it
   * started from, at rest and idle, provided nothing drags it meanwhile.
   */
  lemma JumpLandsOnGround(m: Mate, width: real, n: nat)
    requires !m.isDragging && m.state == Jumping
    requires m.jumpVelocity == JumpImpulse && m.groundY == m.y
    requires 1 <= n <= 39
    ensures n < 39 ==> Frames(m, width, n).state == Jumping && Frames(m, width, n).y < m.groundY
    ensures n == 39 ==>
      Frames(m, width, n).state == Idle && Frames(m, width, n).y == m.groundY &&
      Frames(m, width, n).jumpVelocity == 0.0
  {
    FramesFly(m, width, n);
    JumpFromGround(m.groundY, n);
  }

  lemma {:induction false} FramesWalk(m: Mate, width: real, n: nat)
    requires !m.isDragging && m.state == Walking
    ensures var r := Frames(m, width, n);
      r.state == Walking && !r.isDragging &&
      Walker(r.x, r.dx, r.walkDirection) == WalkFrames(Walker(m.x, m.dx, m.walkDirection), width - Size, n)
  {
    if n > 0 {
      FramesWalk(m, width, n - 1);
    }
  }

  /**
   * A walk that starts on a canvas at least as wide as the character never
   * strays more than one step past either edge. The bounce does not clamp,
   * so this band, and not the canvas, is what a walk keeps to.
   */
  lemma WalkingStaysNearCanvas(m: Mate, width: real, n: nat)
    requires Sound(m) && !m.isDragging && m.state == Walking
    requires Size <= width && 0.0 <= m.x <= width - Size
    ensures -WalkSpeed <= Frames(m, width, n).x <= width - Size + WalkSpeed
  {
    FramesWalk(m, width, n);
    WalkStaysNearCanvas(Walker(m.x, m.dx, m.walkDirection), width - Size, n);
  }

  /** The speech bubble's text while talking: always an entry of the character's list. */
  function Speech(m: Mate): (s: string)
    requires 0 < m.talkTimer
    ensures s in Messages(m.charType)
    ensures m.talkTimer < 150 ==> s == Messages(m.charType)[m.talkTimer / MessagePeriod]
  {
    Messages(m.charType)[MessageIndex(m.talkTimer)]
  }

  // ---------------------------------------------------------------------
  // The view, updated in place
  // ---------------------------------------------------------------------

  class CharacterView {
    var mate: Mate
    var mouseDown: bool
    var offsetX: real
    var offsetY: real
    var hasDragged: bool
    var overInteractive: bool
    var menuOpen: bool
    var dancing: bool
    var danceCount: nat
    var interactiveResets: nat
    var happinessResets: nat

    ghost function Snapshot(): View
      reads this
    {
      View(mate, mouseDown, offsetX, offsetY, hasDragged, overInteractive, menuOpen, dancing, danceCount,
           interactiveResets, happinessResets)
    }

    ghost predicate Valid()
      reads this
    {
      Consistent(Snapshot())
    }

    constructor ()
      ensures Snapshot() == Initial() && Valid()
    {
      mate := Initial().mate;
      mouseDown, offsetX, offsetY, hasDragged := false, 0.0, 0.0, false;
      overInteractive, menuOpen, dancing, danceCount := false, false, false, 0;
      interactiveResets, happinessResets := 0, 0;
    }

    method HideContextMenu()
      requires Valid()
      modifies this`menuOpen, this`interactiveResets
      ensures Valid() && Snapshot() == HideMenu(old(Snapshot()))
    {
      if menuOpen {
        menuOpen := false;
        interactiveResets := interactiveResets + 1;
      }
    }

    method Walk()
      requires Valid()
      modifies this`mate, this`menuOpen, this`interactiveResets
      ensures Valid() && Snapshot() == WalkAction(old(Snapshot()))
    {
      if mate.state == Walking {
        mate := mate.(state := Idle, dx := 0.0, shirtColor := RestShirt(mate.charType), happiness := 0.0);
      } else {
        mate := mate.(state := Walking, dx := WalkSpeed * mate.walkDirection as real,
                      shirtColor := WalkShirt(mate.charType), happiness := 0.3);
      }
      HideContextMenu();
    }

    method Jump()
      requires Valid()
      modifies this`mate, this`menuOpen, this`interactiveResets
      ensures Valid() && Snapshot() == JumpAction(old(Snapshot()))
    {
      if mate.state != Jumping {
        mate := mate.(state := Jumping, jumpVelocity := JumpImpulse, groundY := mate.y,
                      shirtColor := PaleGreen, happiness := 0.5);
      }
      HideContextMenu();
    }

    method Talk()
      requires Valid()
      modifies this`mate, this`menuOpen, this`interactiveResets
      ensures Valid() && Snapshot() == TalkAction(old(Snapshot()))
    {
      if mate.talkTimer > 0 {
        mate := mate.(talkTimer := 0, shirtColor := RestShirt(mate.charType), happiness := 0.0);
      } else {
        mate := mate.(talkTimer := TalkForever, shirtColor := Plum, happiness := 0.4);
      }
      HideContextMenu();
    }

    method Dance()
      requires Valid()
      modifies this`mate, this`dancing, this`danceCount, this`menuOpen, this`interactiveResets
      ensures Valid() && Snapshot() == DanceAction(old(Snapshot()))
    {
      if dancing {
        dancing := false;
        mate := mate.(shirtColor := RestShirt(mate.charType), happiness := 0.0);
      } else {
        mate := mate.(shirtColor := Khaki, happiness := MaxHappiness);
        danceCount := 0;
        dancing := true;
      }
      HideContextMenu();
    }

    /** The dance interval's callback. */
    method DanceTick(sinValue: real, cosValue: real, width: real, height: real)
      requires Valid() && dancing
      modifies this`mate, this`danceCount
      ensures Valid() && Snapshot() == DanceTickEvent(old(Snapshot()), sinValue, cosValue, width, height)
    {
      if !mate.isDragging {
        mate := mate.(x := mate.x + sinValue * 8.0, y := mate.y + cosValue * 4.0);
        mate := mate.(x := Max(0.0, Min(width - Size, mate.x)), y := Max(0.0, Min(height - Size, mate.y)));
      }
      danceCount := danceCount + 1;
    }

    method SwitchCharacter()
      requires Valid()
      modifies this`mate, this`happinessResets, this`menuOpen, this`interactiveResets
      ensures Valid() && Snapshot() == SwitchAction(old(Snapshot()))
    {
      mate := mate.(charType := if mate.charType == Boy then Girl else Boy);
      mate := mate.(shirtColor := RestShirt(mate.charType), hairColor := HairOf(mate.charType), happiness := 0.5);
      happinessResets := happinessResets + 1;
      HideContextMenu();
    }

    /** The timeout scheduled by `SwitchCharacter`. */
    method HappinessResetFires()
      requires Valid() && happinessResets > 0
      modifies this`mate, this`happinessResets
      ensures Valid() && Snapshot() == HappinessTimeout(old(Snapshot()))
    {
      mate := mate.(happiness := 0.0);
      happinessResets := happinessResets - 1;
    }

    /** The timeout scheduled by `MouseUp` or `HideContextMenu`. */
    method InteractiveResetFires()
      requires Valid() && interactiveResets > 0
      modifies this`interactiveResets, this`overInteractive
      ensures Valid() && Snapshot() == InteractiveTimeout(old(Snapshot()))
    {
      interactiveResets := interactiveResets - 1;
      if !mouseDown {
        overInteractive := false;
      }
    }

    method MouseDown(px: real, py: real, button: int)
      requires Valid()
      modifies this`mouseDown, this`hasDragged, this`offsetX, this`offsetY, this`overInteractive, this`menuOpen, this`interactiveResets
      ensures Valid() && Snapshot() == PressEvent(old(Snapshot()), px, py, button)
    {
      if button != 0 {
        return;
      }
      if OverCharacter(px, py, mate.x, mate.y, Size) {
        mouseDown := true;
        hasDragged := false;
        offsetX := px - mate.x;
        offsetY := py - mate.y;
        overInteractive := true;
        HideContextMenu();
      }
    }

    method MouseMove(px: real, py: real, overMenuRect: bool, width: real, height: real)
      requires Valid()
      modifies this`hasDragged, this`mate, this`overInteractive
      ensures Valid() && Snapshot() == MoveEvent(old(Snapshot()), px, py, overMenuRect, width, height)
    {
      if mouseDown {
        if BeyondDragThreshold(px, py, mate.x + offsetX, mate.y + offsetY) {
          hasDragged := true;
          mate := mate.(isDragging := true, state := Idle, dx := 0.0, dy := 0.0);
          mate := mate.(x := px - offsetX, y := py - offsetY);
          mate := mate.(x := Max(0.0, Min(width - Size, mate.x)), y := Max(0.0, Min(height - Size, mate.y)));
        }
      } else {
        overInteractive := OverCharacter(px, py, mate.x, mate.y, Size) || (menuOpen && overMenuRect);
      }
    }

    method MouseUp()
      requires Valid()
      modifies this`mouseDown, this`mate, this`interactiveResets
      ensures Valid() && Snapshot() == ReleaseEvent(old(Snapshot()))
    {
      if mouseDown {
        mouseDown := false;
        mate := mate.(isDragging := false);
        interactiveResets := interactiveResets + 1;
      }
    }

    method ContextMenu(px: real, py: real)
      requires Valid()
      modifies this`menuOpen, this`overInteractive
      ensures Valid() && Snapshot() == ContextMenuEvent(old(Snapshot()), px, py)
    {
      if OverCharacter(px, py, mate.x, mate.y, Size) && !hasDragged {
        menuOpen := true;
        overInteractive := true;
      }
    }

    method DoubleClick(px: real, py: real)
      requires Valid()
      modifies this`mate, this`menuOpen, this`interactiveResets
      ensures Valid() && Snapshot() == DoubleClickEvent(old(Snapshot()), px, py)
    {
      if OverCharacter(px, py, mate.x, mate.y, Size) {
        Talk();
      }
    }

    method DocumentClick(onMenu: bool)
      requires Valid()
      modifies this`menuOpen, this`interactiveResets
      ensures Valid() && Snapshot() == DocumentClickEvent(old(Snapshot()), onMenu)
    {
      if !onMenu && menuOpen {
        HideContextMenu();
      }
    }

    /** `keydown`; returns whether the key asks to close the window. */
    method KeyDown(key: string) returns (close: bool)
      requires Valid()
      modifies this`mate, this`dancing, this`danceCount, this`menuOpen, this`interactiveResets, this`happinessResets
      ensures Valid() && Snapshot() == KeyEvent(old(Snapshot()), key)
      ensures close <==> key == "Escape"
    {
      close := false;
      if key == "w" || key == "W" {
        Walk();
      } else if key == "j" || key == "J" {
        Jump();
      } else if key == "t" || key == "T" {
        Talk();
      } else if key == "d" || key == "D" {
        Dance();
      } else if key == "s" || key == "S" {
        SwitchCharacter();
      } else if key == "Escape" {
        close := true;
      }
    }

    /** The state-changing half of `animate()`: only the character record changes. */
    method Animate(width: real)
      requires Valid()
      modifies this`mate
      ensures Valid() && mate == Frame(old(mate), width)
    {
      MoveMate(width);
      AdvanceCounters();
    }

    /** The walk and jump part of `animate()`. */
    method MoveMate(width: real)
      requires Valid()
      modifies this`mate
      ensures Valid() && mate == Move(old(mate), width)
    {
      if !mate.isDragging {
        WalkMate(width);
        JumpMate();
      }
    }

    /** The walking branch of `animate()`, worked on a copy of the record that is stored back. */
    method WalkMate(width: real)
      requires Valid()
      modifies this`mate
      ensures Valid() && mate == WalkStep(old(mate), width)
    {
      var m := mate;
      if m.state == Walking {
        m := m.(x := m.x + m.dx);
        if m.x <= 0.0 || m.x >= width - Size {
          m := m.(dx := -m.dx, walkDirection := -m.walkDirection);
        }
      }
      mate := m;
    }

    /** The jumping branch of `animate()`, worked on a copy of the record that is stored back. */
    method JumpMate()
      requires Valid()
      modifies this`mate
      ensures Valid() && mate == JumpStep(old(mate))
    {
      var m := mate;
      if m.state == Jumping {
        m := m.(y := m.y + m.jumpVelocity);
        m := m.(jumpVelocity := m.jumpVelocity + Gravity);
        if m.y >= m.groundY {
          m := m.(y := m.groundY, jumpVelocity := 0.0, state := Idle,
                  shirtColor := RestShirt(m.charType), happiness := 0.0);
        }
      }
      mate := m;
    }

    /** The counter part of `animate()`: talk countdown, blink, walk cycle and happiness decay. */
    method AdvanceCounters()
      requires Valid()
      modifies this`mate
      ensures Valid() && mate == Tick(old(mate))
    {
      var m := mate;
      m := m.(talkTimer := MaxInt(0, m.talkTimer - 1));
      m := m.(blinkTimer := m.blinkTimer + 1);
      m := m.(walkCycle := m.walkCycle + 0.2);
      m := m.(happiness := Max(0.0, m.happiness - HappinessDecay));
      if m.blinkTimer > BlinkStart {
        m := m.(isBlinking := true);
        if m.blinkTimer > BlinkEnd {
          m := m.(isBlinking := false, blinkTimer := 0);
        }
      }
      mate := m;
    }
  }
}
