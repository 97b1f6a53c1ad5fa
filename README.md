# desktop-mate character state machine, in Dafny

desktop-mate draws a small animated character on a transparent, always-on-top
canvas. The character can be grabbed and dragged with the mouse, and it walks,
jumps, talks and dances. This project models the state machine behind that
character in the two variants of the program:

- `menu_mate.dfy` (module `MenuMate`) models `installer/simple-mate.js`, the
  human "boy/girl" character driven by a context menu and keyboard shortcuts.
  `walk()`, `talk()` and `dance()` are toggles, and `switchCharacter()` swaps
  boy and girl. `jump()` starts a jump and is ignored while one is under way.
  A press turns into a drag only after a 5-pixel movement. The view also
  tracks a context menu, a happiness level and one dance interval.
- `pet_mate.dfy` (module `PetMate`) models `simple-mate.js`, the pink pet.
  `walk()` schedules a timeout that ends the walk and restores the colour.
  `jump()` and `talk()` schedule timeouts that only restore the colour; the
  jump and the countdown run on. `dance()` schedules no timeout: it starts an
  interval that stops itself. A press over the pet grabs it at once. Every
  call of `dance()` starts its own interval, which stops itself on its 81st
  tick.
- `motion.dfy` (module `Motion`) holds what both variants compute in the same
  way:
  - the constants and the colour palette;
  - the circular hit test, written as a squared-distance comparison;
  - the clamp to the canvas;
  - the walking edge bounce and the jump integration;
  - the talk countdown, the blink counter and the happiness decay;
  - the speech-message index.

Each variant has the same structure:

- `Mate` is a datatype for the character record.
- `View` is a datatype for a snapshot of the record plus the view's own
  variables.
- Every handler and action is first a function on `View`. Its contract says
  what it does and that it keeps the invariant `Consistent`. The key-name
  lookup `MenuMate.Shortcut` is the one exception: it does not act on a view.
- The state-changing half of `animate()` is the function `Frame` on `Mate`.
  `Frames` iterates it.
- Lemmas about `Frames` state the multi-frame properties: a jump lands, the
  talk countdown falls silent, the blink state repeats, a walk stays within
  one step of the canvas.
- The class `CharacterView` holds the record and the view's variables as
  mutable fields.
  - Each method updates those fields in place, in the order the JavaScript
    does.
  - Each method proves that its new state is the result of the
    corresponding function on the old state, and that `Valid()` is kept.

Callbacks that the program schedules with `setTimeout` or `setInterval` are
event methods. Each runs only while such a callback is pending; a counter of
pending callbacks in the view tracks this. Canvas width and height are
parameters, because a window resize can change them. The `Math.sin`/`Math.cos`
dance offsets are arbitrary real parameters.

## Model

| member | source | states |
|---|---|---|
| Motion.OverCharacter | installer/simple-mate.js:62-63 | the circular hit test: the pointer is strictly inside the circle of radius size/2 around the box centre (squared form of the `sqrt` comparison); used by every hit-tested handler |
| Motion.HitTestSymmetric | installer/simple-mate.js:62-63 | the hit test gives the same verdict for a point and its reflection through the centre |
| Motion.HitTestScales | installer/simple-mate.js:62-63 | scaling the pointer offset and the radius by the same positive factor keeps the hit-test verdict |
| Motion.HitTestGrows | installer/simple-mate.js:62-63 | a point over a character of some radius is over every larger one |
| Motion.PressDistanceExamples | simple-mate.js:44-45 | with size 80, a press 40 px right of the centre misses (open circle) and one 10 px away hits |
| Motion.Clamp | installer/simple-mate.js:94-95 | the clamped coordinate is in [0, hi] when hi >= 0; it is the input when the input is already in range, 0 when the input is at or below 0 or hi < 0, and hi when the input is at or beyond hi >= 0 (the nearest edge) |
| Motion.WalkFrame | installer/simple-mate.js:176-181 | a walking step moves x by dx; at or past either edge dx and the direction flip together; a paced walk (dx = 3 * direction) stays paced |
| Motion.WalkStaysNearCanvas | installer/simple-mate.js:176-181 | a paced walk starting on [0, maxX] stays within one step (3 px) of that range, for any number of frames; it does not stay inside it |
| Motion.WalkStuckAtLeftEdge | simple-mate.js:100-105 | a walker at x = 0 heading left alternates between x = 0 and x = -3 forever: the unclamped bounce never frees it |
| Motion.WalkStuckAtRightEdge | installer/simple-mate.js:176-181 | the mirror case: a walker at x = maxX heading right alternates between maxX and maxX + 3 forever; a dance tick that clamps a right-walking character onto the edge reaches it |
| Motion.JumpFrame | installer/simple-mate.js:184-191 | one jump frame lands exactly when y + v reaches groundY, and then snaps to groundY with velocity 0; otherwise y += v and v += 0.8; y never passes below the ground |
| Motion.RiseStep | installer/simple-mate.js:185-186 | the closed form of a jump's height offset agrees with one more frame of integration |
| Motion.RiseNegative | installer/simple-mate.js:185-186 | for frames 1 to 38 of a jump from the ground, the height offset is strictly negative (above the ground) |
| Motion.JumpFromGround | installer/simple-mate.js:184-195 | a jump started from the ground with velocity -15 is strictly above the ground for frames 1 to 38 and lands exactly on the ground, at rest, on frame 39 |
| Motion.TalkTick | installer/simple-mate.js:199 | one frame of the talk countdown never goes below 0 and decrements a positive timer by exactly 1 |
| Motion.TalkCountdown | installer/simple-mate.js:199 | n frames lower a non-negative countdown to max(0, t - n) |
| Motion.Decay | installer/simple-mate.js:202 | happiness decay never produces a negative value, never raises happiness, subtracts exactly 0.01 when that much is left, and gives exactly 0 when less is left |
| Motion.BlinkTick | installer/simple-mate.js:200-210 | one frame of the blink counter keeps the blink invariant: counter in [0, 190], eyes closed exactly when it is above 180 |
| Motion.BlinkTickCounts | installer/simple-mate.js:200-210 | on a valid blink state, one frame adds 1 to the counter, except that 190 wraps to 0 |
| Motion.WindowStep | installer/simple-mate.js:204-209 | counting up by one modulo the 191-value window wraps exactly at 190 |
| Motion.BlinkCycle | installer/simple-mate.js:200-210 | after n frames the blink counter is (t + n) mod 191 and the blink invariant holds |
| Motion.WindowWhole | installer/simple-mate.js:204-209 | adding a whole number of 191-frame windows to a counter in [0, 190] leaves it unchanged modulo 191 |
| Motion.BlinkPeriod | installer/simple-mate.js:200-210 | after any multiple of 191 frames the blink state (counter and flag) is exactly what it was |
| Motion.MessageIndex | installer/simple-mate.js:409 | `floor(talkTimer / 25) % 6` is always a valid index into the six messages, and equals talkTimer / 25 below 150 |
| Motion.MessageRotation | installer/simple-mate.js:409 | the message moves one place through the list every 25 frames and does not change between multiples of 25 |
| MenuMate.Initial | installer/simple-mate.js:25-53 | the starting record and drag variables satisfy the view invariant |
| MenuMate.HideMenu | installer/simple-mate.js:466-477 | hiding closes the menu; only a shown menu schedules the delayed reset of the interactive flag; a hidden menu is left alone; the record is untouched and the invariant is kept |
| MenuMate.WalkAction | installer/simple-mate.js:492-507 | `walk()` toggles: from walking it stops (idle, dx 0, happiness 0); otherwise it walks with dx = 3 * direction; position is unchanged, the menu closes, the invariant is kept |
| MenuMate.JumpAction | installer/simple-mate.js:509-518 | `jump()` while jumping only hides the menu; otherwise it starts a jump with velocity -15 from the current height as ground |
| MenuMate.TalkAction | installer/simple-mate.js:520-533 | `talk()` toggles the countdown: a positive timer becomes 0, a zero timer becomes 9999 |
| MenuMate.DanceAction | installer/simple-mate.js:535-561 | `dance()` toggles the interval; starting one resets its tick counter to 0 and sets happiness to 0.6 |
| MenuMate.DanceTickEvent | installer/simple-mate.js:548-558 | a dance tick advances the counter whether or not the character is dragged; when not dragged, the character is shifted by sin·8 horizontally and cos·4 vertically and clamped to the nearest canvas edge, ending inside the canvas; a dragged character does not move |
| MenuMate.SwitchAction | installer/simple-mate.js:563-570 | `switchCharacter()` swaps boy and girl, sets the new rest shirt and hair colours, and schedules the happiness reset |
| MenuMate.HappinessTimeout | installer/simple-mate.js:568 | the scheduled reset drops happiness to 0 |
| MenuMate.InteractiveTimeout | installer/simple-mate.js:124-129 | the delayed reset clears the interactive flag unless the pointer is held again; the record, the held pointer and the menu are untouched, and the invariant is kept |
| MenuMate.SwitchAndDanceTwice | installer/simple-mate.js:535-570 | switching twice restores the character type and hair; dancing twice restores whether an interval runs |
| MenuMate.WalkAndTalkTwice | installer/simple-mate.js:492-533 | from idle or walking, walking twice restores the state; from silence or the endless countdown, talking twice restores the timer |
| MenuMate.PressEvent | installer/simple-mate.js:55-74 | only a primary-button press over the character holds the pointer, records the grab offset, clears `hasDragged` and hides the menu; it never moves or grabs the record |
| MenuMate.MoveEvent | installer/simple-mate.js:76-115 | once the pointer is held and more than 5 px from the grab point, the character is dragged: idle, velocity 0, position is the pointer minus the grab offset, clamped to the nearest canvas edge; a held pointer still under the threshold changes nothing; without a held pointer only hover sets the interactive flag; the grab offset is never changed |
| MenuMate.ReleaseEvent | installer/simple-mate.js:117-131 | releasing a held pointer ends the drag and schedules the interactive reset; without a held pointer nothing changes |
| MenuMate.ContextMenuEvent | installer/simple-mate.js:134-143 | the menu opens exactly when the right click is over the character and the last press did not drag; the record is untouched and the invariant is kept |
| MenuMate.DoubleClickEvent | installer/simple-mate.js:146-154 | a double click over the character is `talk()`, elsewhere it does nothing |
| MenuMate.DocumentClickEvent | installer/simple-mate.js:157-162 | a click outside the menu hides it; a click on the menu changes nothing; the record is untouched and the invariant is kept |
| MenuMate.Shortcut | installer/simple-mate.js:573-588 | each letter in either case selects exactly its action, and Escape selects closing |
| MenuMate.KeyEvent | installer/simple-mate.js:573-588 | a key press performs exactly the selected action; Escape and other keys leave the state alone |
| MenuMate.WalkStep | installer/simple-mate.js:175-182 | the walking branch of the frame is one `WalkFrame` on (x, dx, direction) with the canvas width minus the size as right edge |
| MenuMate.JumpStep | installer/simple-mate.js:184-195 | the jumping branch is one `JumpFrame`; a landing makes the character idle, resets the shirt to the rest colour and happiness to 0 |
| MenuMate.Move | installer/simple-mate.js:174-196 | a dragged character does not move; otherwise walking and jumping integrate as above; counters are untouched |
| MenuMate.Tick | installer/simple-mate.js:199-210 | the counters of a frame: talk countdown, blink step and happiness decay; motion and behaviour are untouched |
| MenuMate.DraggingFreezesMotion | installer/simple-mate.js:174-196 | while dragged, any number of frames leave x, y, dx, jump velocity and state unchanged |
| MenuMate.FramesKeepSound | installer/simple-mate.js:170-214 | frames keep the record invariant: talk timer in [0, 9999], blink invariant, happiness in [0, 0.6], paced walking |
| MenuMate.TalkFallsSilent | installer/simple-mate.js:199 | after n frames the talk timer is max(0, t - n) |
| MenuMate.FramesBlink | installer/simple-mate.js:200-210 | n frames advance the blink state exactly as n blink steps, whatever else happens |
| MenuMate.BlinkRepeats | installer/simple-mate.js:200-210 | after any multiple of 191 frames the blink counter and flag are back where they were |
| MenuMate.FramesFly | installer/simple-mate.js:184-195 | undragged frames of a jump follow the `Airborne` integration of (y, velocity) toward the fixed ground |
| MenuMate.JumpLandsOnGround | installer/simple-mate.js:184-195 | a jump just started with velocity -15 is above the ground for 38 frames and lands on the ground, idle and at rest, on frame 39 |
| MenuMate.FramesWalk | installer/simple-mate.js:175-182 | undragged walking frames follow `WalkFrames` on (x, dx, direction) |
| MenuMate.WalkingStaysNearCanvas | installer/simple-mate.js:175-182 | a walk starting on the canvas stays within 3 px of it |
| MenuMate.Speech | installer/simple-mate.js:405-409 | the bubble text is always one of the current character's six messages, the (talkTimer / 25)-th below 150 |
| MenuMate.CharacterView.constructor | installer/simple-mate.js:25-53 | the initial fields are the initial view, which is consistent |
| MenuMate.CharacterView.HideContextMenu | installer/simple-mate.js:466-477 | updates the fields as `HideMenu`, keeping the invariant |
| MenuMate.CharacterView.Walk | installer/simple-mate.js:492-507 | updates the fields in place as `WalkAction` |
| MenuMate.CharacterView.Jump | installer/simple-mate.js:509-518 | updates the fields in place as `JumpAction` |
| MenuMate.CharacterView.Talk | installer/simple-mate.js:520-533 | updates the fields in place as `TalkAction` |
| MenuMate.CharacterView.Dance | installer/simple-mate.js:535-561 | updates the fields in place as `DanceAction` |
| MenuMate.CharacterView.DanceTick | installer/simple-mate.js:548-558 | the interval callback updates the fields as `DanceTickEvent` |
| MenuMate.CharacterView.SwitchCharacter | installer/simple-mate.js:563-570 | updates the fields in place as `SwitchAction` |
| MenuMate.CharacterView.HappinessResetFires | installer/simple-mate.js:568 | the pending happiness reset runs as `HappinessTimeout` |
| MenuMate.CharacterView.InteractiveResetFires | installer/simple-mate.js:124-129 | a pending interactive reset runs as `InteractiveTimeout` |
| MenuMate.CharacterView.MouseDown | installer/simple-mate.js:55-74 | the press handler updates the fields as `PressEvent` |
| MenuMate.CharacterView.MouseMove | installer/simple-mate.js:76-115 | the move handler updates the fields as `MoveEvent` |
| MenuMate.CharacterView.MouseUp | installer/simple-mate.js:117-131 | the release handler updates the fields as `ReleaseEvent` |
| MenuMate.CharacterView.ContextMenu | installer/simple-mate.js:134-143 | the right-click handler updates the fields as `ContextMenuEvent` |
| MenuMate.CharacterView.DoubleClick | installer/simple-mate.js:146-154 | the double-click handler updates the fields as `DoubleClickEvent` |
| MenuMate.CharacterView.DocumentClick | installer/simple-mate.js:157-162 | the document click handler updates the fields as `DocumentClickEvent` |
| MenuMate.CharacterView.KeyDown | installer/simple-mate.js:573-588 | the key handler updates the fields as `KeyEvent` and reports whether the window is to close (Escape) |
| MenuMate.CharacterView.Animate | installer/simple-mate.js:170-214 | one animation frame changes only the record, to `Frame` of the old record, keeping the invariant |
| MenuMate.CharacterView.MoveMate | installer/simple-mate.js:174-196 | the motion half of the frame, in place, as `Move` |
| MenuMate.CharacterView.WalkMate | installer/simple-mate.js:175-182 | the walking statements, in place, as `WalkStep` |
| MenuMate.CharacterView.JumpMate | installer/simple-mate.js:184-195 | the jumping statements, in place, as `JumpStep` |
| MenuMate.CharacterView.AdvanceCounters | installer/simple-mate.js:199-210 | the counter statements, in place, as `Tick` |
| PetMate.Initial | simple-mate.js:13-37 | the starting record and drag variables satisfy the view invariant |
| PetMate.WalkAction | simple-mate.js:317-320 | `walk()` always starts walking with dx = 3 * direction in sky blue, and schedules the end of the walk |
| PetMate.WalkTimeout | simple-mate.js:321-325 | the end of the walk makes the pet idle with dx 0 and the base colour, whatever it is doing, and keeps its height and jump velocity |
| PetMate.JumpAction | simple-mate.js:328-336 | `jump()` while jumping changes nothing; otherwise it starts a jump with velocity -15 from the current height as ground, in green, and schedules a colour reset |
| PetMate.TalkAction | simple-mate.js:338-342 | `talk()` sets the countdown to 120 and the colour to plum and schedules a colour reset |
| PetMate.ColorTimeout | simple-mate.js:334 | a colour reset restores the base colour and nothing else: the rest of the record, the dance intervals, the held pointer and the walk timeouts are unchanged |
| PetMate.DanceAction | simple-mate.js:344-347 | `dance()` adds one more interval, with counter 0, to those running, and paints the pet khaki |
| PetMate.Advance | simple-mate.js:356-360 | one tick of a dance counter stops the interval exactly when the count passes 80, and otherwise adds 1 |
| PetMate.DanceLifetime | simple-mate.js:356-360 | a fresh dance counter reads k after k <= 80 ticks, and the 81st tick stops the interval |
| PetMate.DanceTickEvent | simple-mate.js:347-361 | a tick of interval i shifts the pet by sin·8 horizontally and cos·4 vertically, clamped to the nearest canvas edge, unless it is dragged; the counter advances even while dragged; on the 81st tick the interval is removed and the base colour restored, and the other intervals are untouched |
| PetMate.PressEvent | simple-mate.js:39-53 | a press over the pet holds the pointer, grabs it at once (no threshold), makes it idle and records the offset; elsewhere nothing changes |
| PetMate.MoveEvent | simple-mate.js:55-74 | while held and dragged, the pet is at the pointer minus the grab offset, clamped to the nearest canvas edge, with velocity 0; the behaviour state is not touched; otherwise nothing changes |
| PetMate.ReleaseEvent | simple-mate.js:76-80 | release clears the held pointer and the drag unconditionally, and changes nothing else in the record, the dance intervals or the pending timeouts |
| PetMate.DoubleClickEvent | simple-mate.js:83-91 | a double click over the pet is `talk()`, elsewhere it does nothing |
| PetMate.WalkStep | simple-mate.js:99-106 | the walking branch of the frame is one `WalkFrame` with the canvas width minus the size as right edge |
| PetMate.JumpStep | simple-mate.js:108-117 | the jumping branch is one `JumpFrame`; a landing makes the pet idle and leaves the colour alone |
| PetMate.Move | simple-mate.js:98-118 | a dragged pet does not move; otherwise walking and jumping integrate as above |
| PetMate.Tick | simple-mate.js:121-132 | the counters of a frame: talk countdown and blink step; motion, behaviour and colour are untouched |
| PetMate.DraggingFreezesMotion | simple-mate.js:98-118 | while dragged, any number of frames leave x, y, dx, jump velocity and state unchanged |
| PetMate.FramesKeepSound | simple-mate.js:94-136 | frames keep the record invariant: talk timer in [0, 120], blink invariant, direction +1 or -1 |
| PetMate.FramesTalk | simple-mate.js:121 | after n frames the talk timer is max(0, t - n) |
| PetMate.TalkLastsTwoSeconds | simple-mate.js:121 | after `talk()` the countdown is positive for 119 frames and 0 from frame 120 on |
| PetMate.FramesBlink | simple-mate.js:122-132 | n frames advance the blink state exactly as n blink steps |
| PetMate.BlinkRepeats | simple-mate.js:122-132 | after any multiple of 191 frames the blink counter and flag are back where they were |
| PetMate.FramesFly | simple-mate.js:108-117 | undragged frames of a jump follow the `Airborne` integration and keep ground and colour |
| PetMate.JumpLandsOnGround | simple-mate.js:108-117 | after `jump()` from rest the pet is above its starting height for 38 frames and lands on it, idle and at rest, on frame 39 |
| PetMate.WalkTimeoutStopsJump | simple-mate.js:321-325 | the end of a walk that fires mid-jump leaves the pet idle in mid-air, above its ground, for every later frame |
| PetMate.IdleStaysPut | simple-mate.js:98-118 | frames never move an idle pet |
| PetMate.FramesWalk | simple-mate.js:99-106 | undragged walking frames follow `WalkFrames` |
| PetMate.WalkingStaysNearCanvas | simple-mate.js:99-106 | a paced walk starting on the canvas stays within 3 px of it |
| PetMate.WalkDuringDragStalls | simple-mate.js:59-68 | `walk()` during a drag followed by a drag move and a release leaves the pet "walking" with dx 0, motionless for every later frame |
| PetMate.StalledWalk | simple-mate.js:99-106 | frames never move a walking pet whose dx is 0 |
| PetMate.Speech | simple-mate.js:283-285 | the bubble text is always one of the six pet messages, the (talkTimer / 25)-th below 150 |
| PetMate.CharacterView.constructor | simple-mate.js:13-37 | the initial fields are the initial view, which is consistent |
| PetMate.CharacterView.Walk | simple-mate.js:317-320 | updates the fields in place as `WalkAction` |
| PetMate.CharacterView.WalkResetFires | simple-mate.js:321-325 | the pending end of walk runs as `WalkTimeout` |
| PetMate.CharacterView.Jump | simple-mate.js:328-336 | updates the fields in place as `JumpAction` |
| PetMate.CharacterView.Talk | simple-mate.js:338-342 | updates the fields in place as `TalkAction` |
| PetMate.CharacterView.ColorResetFires | simple-mate.js:341 | a pending colour reset runs as `ColorTimeout` |
| PetMate.CharacterView.Dance | simple-mate.js:344-347 | updates the fields in place as `DanceAction` |
| PetMate.CharacterView.DanceTick | simple-mate.js:347-361 | the callback of interval i updates the fields as `DanceTickEvent` |
| PetMate.CharacterView.MouseDown | simple-mate.js:39-53 | the press handler updates the fields as `PressEvent` |
| PetMate.CharacterView.MouseMove | simple-mate.js:55-74 | the move handler updates the fields as `MoveEvent` |
| PetMate.CharacterView.MouseUp | simple-mate.js:76-80 | the release handler updates the fields as `ReleaseEvent` |
| PetMate.CharacterView.DoubleClick | simple-mate.js:83-91 | the double-click handler updates the fields as `DoubleClickEvent` |
| PetMate.CharacterView.Animate | simple-mate.js:94-136 | one animation frame changes only the record, to `Frame` of the old record, keeping the invariant |
| PetMate.CharacterView.MoveMate | simple-mate.js:98-118 | the motion half of the frame, in place, as `Move` |
| PetMate.CharacterView.WalkMate | simple-mate.js:99-106 | the walking statements, in place, as `WalkStep` |
| PetMate.CharacterView.JumpMate | simple-mate.js:108-117 | the jumping statements, in place, as `JumpStep` |
| PetMate.CharacterView.AdvanceCounters | simple-mate.js:121-132 | the counter statements, in place, as `Tick` |

## Left out

- Drawing: `drawMate` in both files is not modelled; that covers shapes, colours as painted, bubble geometry and the `Date.now()`-driven eye, ponytail, paw and mouth animation. Only the speech-message index is kept. `walkCycle`, `tailWag` and `earBounce` are advanced but only read by drawing.
- `eyeOffset`, `skinColor`, `size`, `gravity` and `dragStartTime` are not record fields. `eyeOffset` is written and read only by the drawing code, `skinColor` is never changed, `size` and `gravity` are the constants `Size` and `Gravity`, and `dragStartTime` is written but never read.
- Electron and the DOM:
  - the window-level mouse-event passthrough and its `ipcRenderer` messages (`updateMouseEvents`);
  - cursor styles;
  - the menu labels (`updateMenuItems`);
  - the menu's position and its 10 ms repositioning timeout.

  main.js and installer/main.js are not part of this model.
- The hover test against the context menu's bounding rectangle is the boolean parameter `overMenuRect` of `MenuMate.MoveEvent`.
- `DocumentClickEvent` reads whether the click target lies inside the menu from the boolean parameter `onMenu`.
- `window.close()` on Escape: `MenuMate.CharacterView.KeyDown` returns `close = true` instead of closing anything.
- Timing:
  - real time, and the order in which the browser runs timeouts, intervals and animation frames;
  - any event may happen between two frames;
  - a scheduled callback is an event method that may run at any later point while it is pending;
  - the dance interval's 60 ms period and the timeout delays are not modelled.
- Floating point: positions and velocities are exact reals. `Math.sin`/`Math.cos` in the dance tick are arbitrary real inputs, so IEEE rounding is not modelled.
- The window resize handler: canvas width and height are parameters of every step that uses them.
- `Talking`: this behaviour value is declared but never entered by either variant; talking is the talk timer.
- PetMate.Sound: it does not include "walking implies dx = 3 * direction". The pet breaks that rule itself: a drag move zeroes dx without leaving the walking state (`WalkDuringDragStalls`). `WalkingStaysNearCanvas` therefore asks for it as a precondition.
