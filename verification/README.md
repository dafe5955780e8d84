# Snake game core, modelled in Dafny

This project models the game loop of a browser snake game (`js/main.js`).

- The snake's head moves by `speed` pixels for each animation frame.
- Its past head positions are recorded most-recent-first.
- Every fourth recorded position becomes a visible tail segment, and there is one segment per apple eaten.
- Eating an apple scores a point and moves the apple to a new random place. The apple is re-rolled while it touches the head, then while it touches the tail.
- The game is lost when the head bites the tail or leaves the canvas.
- A one-minute timer counts down once per second.
- The arrow keys start and steer the animation. A 180-degree turn is refused.
- The space bar reloads everything.

The entities are built as follows:

- Rectangles, positions and the collision engine are values (`Geometry`).
- Every object whose fields the script updates in place is a class:
  - the snake (`Snakes.Snake`);
  - the apple (`Apples.Apple`);
  - the score and the timer (`Counters`);
  - the tail drawing and the animation manager (`Animation`);
  - the keyboard manager (`Keyboard`).
- `Game.Session` wires them together as the page's load handler does. Its methods are the browser events: a key press, a requested frame, a timer tick and the space-bar reload.

How the model treats things outside the script:

- **Random numbers** are supplied by the caller as integer rolls. `RandomBelow` states which integers `getRandomNumber` can yield.
- **Frames and intervals** are abstract handles. `pending` holds the frames requested and not yet run or cancelled. `live` holds the intervals that are still running.
- **Reading an `undefined` tail segment.** The tail samples history entry `4 * (k + 1)` for segment `k`. When the history is shorter, the segment is `undefined`, and reading its `.x` throws a TypeError.
  - The tail is read by the tail drawing, by the bite check, and by the apple's re-roll loop.
  - The model gives such a throw the outcome `UndefinedTail`. It aborts the frame callback before the next frame is requested, and it aborts the space-bar handler before anything is reloaded.
  - What counts is the length of the history, which `getTail` cuts to `4 * (eat + 1)` entries on every frame, not the number of positions ever recorded. When `eat` is incremented while the history holds at most `4 * eat` entries (an apple on one of the first four frames, or two apples within four frames), the tail becomes unreadable. The game is then stuck: an arrow key still requests a frame, but every later frame throws before moving, and the reload throws too. `Scenarios.EarlyAppleFreezesTheGame` shows this on a concrete game.
  - A loss takes effect before the final tail draw. A frame can therefore end scoring and cancel the interval and then throw, as `Scenarios.EdgeAppleLosesThenThrows` shows.

Three properties of the source are kept as written:

- The apple's second re-roll loop looks only at tail segments 1 and on. It looks neither at the head again nor at segment 0. So the apple can land on the head when the second loop re-rolls, and on the first segment at any time. When the second loop accepts at once, as it always does for the first apple, the apple is off the head.
- A loss clears only the score's flag and cancels the timer's interval. The timer's own `isPlaying` flag stays set.
- `timer.reload()` cancels the interval and does not start a new one. The next arrow key starts it again.

The keyboard manager's invariant (`Keyboard.KeyboardManager.Valid`) proves three things:

- At most one frame is requested at a time.
- The bag holds exactly the one move closure for the last accepted direction, or none before the first arrow key.
- At most one interval is running.

So the move closures do not pile up in this revision. The first arrow key's `run` finds the bag empty, because no closure exists before the first key (or after a reload). Every later `run` follows a `stop()`, which empties the bag.

## Model

| member | source | states |
|---|---|---|
| Geometry.HasCollision | js/main.js:385-391 | hasCollision as strict overlap on both axes; colliding rectangles have positive combined width and height, and two rectangles of positive size at the same corner collide |
| Geometry.InCanvas | js/main.js:393-400 | inCanvas as written; on a canvas at the origin, an entity of non-negative size that passes has both corners strictly inside the canvas |
| Geometry.RandomBelow | js/main.js:43-46 | the integers getRandomNumber(max) can yield: 0, or an integer with the sign of max and a smaller magnitude |
| Geometry.CollisionIsSymmetric | js/main.js:385-391 | hasCollision gives the same answer with its arguments swapped |
| Geometry.EdgeContactIsNoCollision | js/main.js:385-391 | rectangles that only share an edge do not collide (the comparisons are strict) |
| Geometry.CollisionIsSharedPixel | js/main.js:385-391 | for positive sizes, hasCollision holds exactly when some pixel lies in both rectangles |
| Geometry.InCanvasIsInterior | js/main.js:393-400 | on a canvas at the origin, inCanvas holds exactly when every point of the entity, edges included, is strictly inside the canvas |
| Snakes.Moved | js/main.js:116-133 | a move changes one coordinate by speed: x for left/right, y for top/down, minus for left/top, plus for right/down |
| Snakes.MovedThenOpposite | js/main.js:178-183 | a move followed by a move in the opposite direction returns the head to where it was |
| Snakes.MovedTimesIsOneLongMove | js/main.js:116-121 | n moves of speed pixels equal one move of n * speed pixels |
| Snakes.At | js/main.js:219 | positionHistory[j] is defined exactly when j is an index of the history |
| Snakes.TailOf | js/main.js:211-221 | the tail getTail samples (entry 4 * (i + 1) for segment i) has exactly eat segments; which of them are defined is TailDefinedIff |
| Snakes.Trimmed | js/main.js:223 | splice(4 * (eat + 1)) never lengthens the history, keeps at most 4 * (eat + 1) entries, and removes something only when the history is longer than that |
| Snakes.TailDefinedIff | js/main.js:216-221 | the sampled tail has no undefined segment exactly when eat is 0 or the history holds more than 4 * eat entries |
| Snakes.TrimKeepsTail | js/main.js:216-224 | the splice keeps a prefix of at most 4 * (eat + 1) entries, leaves the sampled tail the same, and a second getTail trims nothing more |
| Snakes.ShortHistoryIsNotTrimmed | js/main.js:218-223 | when the tail has an undefined segment, the splice removes nothing |
| Snakes.Snake.constructor | js/main.js:139-173 | speed 3, a 10 by 10 body at the rolled position, an empty history, nothing eaten |
| Snakes.Snake.Move | js/main.js:178-183 | move[d] sets the head to Moved(head, d, speed) |
| Snakes.Snake.RandomPosition | js/main.js:188-191 | the head goes to the rolled position, drawn below canvas size minus snake size |
| Snakes.Snake.RecordPosition | js/main.js:199-201 | the new position becomes entry 0 and every older entry moves up by one |
| Snakes.Snake.GetTail | js/main.js:206-225 | the tail has eat segments; segment i is history entry 4 * (i + 1), or undefined past the end; the history becomes Trimmed |
| Snakes.Snake.SetEat | js/main.js:230-232 | eat grows by one |
| Snakes.Snake.Reload | js/main.js:237-241 | empty history, eat 0, head at the rolled position |
| Apples.Apple.constructor | js/main.js:54-71 | a 10 by 10 apple at the rolled position |
| Apples.Apple.NewPosition | js/main.js:76-79 | the apple goes to the rolled position, drawn below width minus height and height minus width |
| Apples.Apple.Reload | js/main.js:84-86 | reload is a new random position |
| Counters.Score.constructor | js/main.js:531-533 | score 0, step 1, playing |
| Counters.Score.AddScore | js/main.js:534-538 | the score grows by step while playing and is unchanged otherwise |
| Counters.Score.Reload | js/main.js:545-549 | score 0 and playing again |
| Counters.Timer.constructor | js/main.js:560-573 | 60 seconds left, playing, no interval running |
| Counters.Timer.Run | js/main.js:574-585 | a fresh interval handle is stored and becomes live |
| Counters.Timer.Tick | js/main.js:575-584 | one second less; at zero the interval is cancelled and the timer stops playing, otherwise nothing else changes |
| Counters.Timer.Stop | js/main.js:586-588 | the stored interval is cancelled; cancelling a dead one is a no-op |
| Counters.Timer.Reload | js/main.js:589-594 | the interval is cancelled, the countdown is back to 60 and the timer is playing; no interval is restarted |
| Animation.ProbeTail | js/main.js:463-469 | the collisionWithTail loop from segment i: a hit or a throw needs a segment at or after i (its full characterisation is in ProbeMissIff and ProbeOnDefinedTail) |
| Animation.ProbeMissIff | js/main.js:460-470 | collisionWithTail returns false exactly when every segment from the second on is defined and clear of the object |
| Animation.ProbeOnDefinedTail | js/main.js:460-470 | on a defined tail collisionWithTail never throws, and returns true exactly when some segment from the second on collides |
| Animation.Gpu.constructor | js/main.js:253-259 | the gpu draws the snake it is given |
| Animation.Gpu.PaintTail | js/main.js:294-312 | drawing or clearing the tail trims the history and succeeds exactly when no sampled segment is undefined |
| Animation.AnimationManager.constructor | js/main.js:420-421 | no frame requested, an empty bag |
| Animation.AnimationManager.Run | js/main.js:431-435 | the closure for the direction joins the bag and a new frame is requested |
| Animation.AnimationManager.Stop | js/main.js:436-439 | the last requested frame is cancelled and the bag is emptied |
| Animation.AnimationManager.CollisionWithTail | js/main.js:460-470 | the probe result equals ProbeTail over the sampled tail from segment 1, and the history is trimmed |
| Animation.AnimationManager.MoveSnake | js/main.js:476-479 | the head moves and is recorded only while both the score and the timer are playing |
| Animation.AnimationManager.OffHead | js/main.js:488-491 | the head loop's stopping roll lies between the roll it starts from and the end of the rolls |
| Animation.AnimationManager.OffTail | js/main.js:493-496 | the tail loop's stopping roll lies between the roll it starts from and the end of the rolls |
| Animation.AnimationManager.Relocation | js/main.js:486-496 | the relocation draws at most all rolls, at least one unless they run out, and all of them when they do |
| Animation.AnimationManager.OffHeadIsFirst | js/main.js:488-491 | every roll the head loop passes over touches the head, and the roll it stops at does not |
| Animation.AnimationManager.OffTailIsFirst | js/main.js:493-496 | every roll the tail loop passes over hits tail segments 1 and on, and the roll it stops at does not |
| Animation.AnimationManager.RelocationOffHead | js/main.js:486-496 | when the tail loop accepts the roll the head loop settled on, the relocation ends on it and the apple is clear of the head; with at most one tail segment the relocation cannot throw, and an apple placed by it is clear of the head |
| Animation.AnimationManager.RerollOffHead | js/main.js:486-491 | the apple ends on the first roll clear of the head, or on the last roll, still touching the head, when every roll does |
| Animation.AnimationManager.RerollOffTail | js/main.js:493-496 | from the roll the apple is on, the apple ends on the first roll whose probe of tail segments 1 and on is not a hit; the loop ends normally on a miss, throws on an undefined segment, and runs out only when every roll hits; the history is trimmed |
| Animation.AnimationManager.EatApple | js/main.js:481-498 | eat +1 and a point while playing; the outcome and the number of rolls drawn are exactly Relocation's, the head loop first and then the tail loop; the apple ends on the last roll drawn; a completed relocation leaves the apple clear of tail segments 1 and on |
| Animation.AnimationManager.Advance | js/main.js:476-498 | meets Advanced: the head moves only while both flags are set; the snake grows and scores exactly when the moved head hits the apple, and then the rolls drawn and the outcome are Relocation's; a throw in the tail re-roll loop leaves the apple on an undefined probe; a completed relocation leaves the apple clear of tail segments 1 and on |
| Animation.AnimationManager.CheckLoss | js/main.js:500-518 | meets Checked: unless the bite probe throws, scoring ends and the interval is cancelled exactly on a bite (eat > 1) or on leaving the canvas, whether or not the final draw then throws; a throwing bite probe changes nothing; the final draw succeeds exactly when the tail is defined |
| Animation.AnimationManager.AdvanceThenCheck | js/main.js:472-519 | the move and eat phase followed, when it ends normally, by the loss check makes up ReadableStep, and never adds a live interval |
| Animation.AnimationManager.StepOnReadableTail | js/main.js:476-519 | a move closure whose tail was just drawn without error meets ReadableStep: the apple relocation draws Relocation's rolls, and a loss takes effect before a final draw that throws |
| Animation.AnimationManager.FirstAppleLandsOffHead | js/main.js:481-498 | after a step that eats the first apple and does not run out of rolls, the apple is on the first roll clear of the moved head |
| Animation.AnimationManager.Step | js/main.js:472-519 | one call of the move closure meets StepEffect: with an unreadable tail it throws at once and nothing changes; otherwise the tail is trimmed and ReadableStep holds |
| Animation.AnimationManager.RunBag | js/main.js:425-427 | an empty bag changes nothing; with one closure the effect is StepEffect; with an unreadable tail the first closure throws and nothing changes |
| Animation.AnimationManager.Frame | js/main.js:422-429 | the frame callback: the next frame is requested exactly when no closure threw; the bag is unchanged |
| Keyboard.Mapping | js/main.js:333 | exactly the key codes 37 to 40 are mapped, and the odd ones (37, 39) are the horizontal directions |
| Keyboard.KeyboardManager.constructor | js/main.js:325-327 | awaiting the first key, timer not started, no last key |
| Keyboard.KeyboardManager.CanChangeDirection | js/main.js:339-345 | refused exactly when the key maps to the opposite of the last accepted key's direction |
| Keyboard.KeyboardManager.SetKeydown | js/main.js:351-368 | unmapped keys change nothing; the first arrow key starts the one interval; an accepted turn leaves the single closure for the new direction and one requested frame; a reversal changes nothing else; the invariant Valid is kept |
| Keyboard.KeyboardManager.Reload | js/main.js:373-378 | the animation is stopped and the manager waits for a first key again |
| Game.Session.constructor | js/main.js:613-636 | all components are fresh and wired, at their initial values, and the session invariant holds |
| Game.Session.KeyDown | js/main.js:604-607 | a keydown reaches setKeydown; an accepted arrow key leaves one closure and one requested frame |
| Game.Session.AnimationFrame | js/main.js:422-429 | a requested frame runs the single closure with StepEffect; afterwards one frame is requested, or none if the step threw |
| Game.Session.SecondElapses | js/main.js:575-584 | a live interval ticks; while seconds remain the interval keeps running, and at zero seconds no interval is live |
| Game.Session.Reload | js/main.js:638-655 | the space-bar reload succeeds exactly when the tail is readable; it then resets every component and stops the animation; otherwise nothing changes |
| Scenarios.TenFramesRight | js/main.js:472-519 | after arrow right and ten frames, the head is where ten moves of 3 pixels put it (30 pixels right) and nothing is scored or lost |
| Scenarios.RightIntoTheEdge | js/main.js:509-518 | crossing the right edge ends scoring and cancels the interval; the timer flag stays set and the next frame does not move the head |
| Scenarios.EdgeAppleLosesThenThrows | js/main.js:509-518 | an apple eaten while crossing the right edge scores, ends scoring and cancels the interval, and then the final tail draw throws |
| Scenarios.EarlyApple | js/main.js:294-301 | an apple eaten on the first frame makes that frame throw and leaves the tail unreadable with one point scored |
| Scenarios.EarlyAppleFreezesTheGame | js/main.js:294-301 | an apple eaten on the first frame makes that frame throw; the next frame throws too and so does the reload, and the point stays |

## Left out

- Drawing is not modelled: the snake's and the apple's draw and clear calls, `printScore`, `printTime` and `getTimeInPercentage`, because they only paint. The tail draw and clear are modelled because they read and trim the history.
- `getCanvas` reads the canvas size from the page. The size is a parameter of `Game.Session.constructor`, with the origin at (0, 0).
- The canvas attributes are strings in the script. Subtraction and comparison convert them to numbers, so they are integers here.
- `requestAnimationFrame`, `cancelAnimationFrame`, `setInterval` and `clearInterval` are not modelled; abstract handle counters and sets stand in for them. When a callback runs is left to the caller, which calls `Frame` / `AnimationFrame` and `SecondElapses`.
- `Math.random` is replaced by integer rolls supplied by the caller. `RandomBelow` bounds the rolls. It does not model `parseInt` reading the exponent notation of values below 1e-6.
- Animation.AnimationManager.EatApple: the apple re-roll loops take their rolls from a finite sequence. When the sequence runs out, the outcome is `OutOfRolls`, where the script would keep drawing; this outcome exists only in the model.
- `console.log` calls are not modelled because they only log. The `addEventListener` wiring is not modelled either; it becomes the event methods of `Game.Session`.
- Animation.AnimationManager.Frame: states the game effect of a frame (StepEffect) only when the bag holds one closure. The keyboard manager's invariant guarantees that this is the only case that happens, besides the empty bag.
- Animation.AnimationManager.RunBag: states the effect of the closures only for a bag of zero or one closure, and the throw of the first closure on an unreadable tail. It does not state the combined effect of two or more closures run in order, because the keyboard manager's invariant rules out such a bag.
- Snakes.At, Snakes.TailOf, Snakes.Trimmed, Animation.ProbeTail, Animation.AnimationManager.OffHead, Animation.AnimationManager.OffTail, Animation.AnimationManager.Relocation: their own contracts state only sizes and bounds. What they mean is proved in the lemmas beside them (`TailDefinedIff`, `TrimKeepsTail`, `ProbeMissIff`, `ProbeOnDefinedTail`, `OffHeadIsFirst`, `OffTailIsFirst`, `RelocationOffHead`), which keeps those facts out of every proof that mentions the functions.
- Game.Session.KeyDown: states only the accepted-arrow case and the invariant; `Keyboard.KeyboardManager.SetKeydown` carries the full contract.
- Counters.Timer.Reload: does not restart the interval, because the script's `reload` only cancels it. The interval starts again with the next arrow key.
- Animation.AnimationManager.EatApple: does not state that the apple always ends clear of the head or of segment 0, because the script does not ensure it. Once the tail loop re-rolls, nothing checks the head again, and segment 0 is never checked. When the tail loop accepts the roll the head loop settled on, as it always does for the first apple, the apple is clear of the head (`RelocationOffHead`, `FirstAppleLandsOffHead`).
