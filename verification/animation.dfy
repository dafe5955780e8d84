/**
 * Drawing of the tail (`getGpu`) and the animation manager (`getAnimationManager`): the
 * bag of move closures, the frame callback, and the step each closure performs.
 */
module Animation {

  import opened Options
  import opened Geometry
  import opened Snakes
  import opened Apples
  import opened Counters

  /**
   * How a step or frame callback ends. `UndefinedTail`: it touched a tail segment past the
   * end of the history, where reading `.x` of `undefined` throws a TypeError that aborts
   * the callback. `OutOfRolls`: the random positions supplied for the apple ran out inside
   * a retry loop, where the script would keep drawing.
   */
  datatype Outcome = Done | UndefinedTail | OutOfRolls

  /** What `collisionWithTail` does: returns true, returns false, or throws. */
  datatype Probe = Hit | Miss | Undefined

  /**
   * A snapshot of what a step reads and writes: the snake's head, history and eat count,
   * the apple's position, the score and its flag, the timer's flag, its live intervals and
   * the handle it would cancel.
   */
  datatype World = World(position: Position, history: seq<Position>, eat: nat, apple: Position,
                         points: int, scoring: bool, timing: bool, live: set<nat>, interval: nat)

  /** `collisionWithTail` from segment i on: segments are tried in order until one collides. */
  function ProbeTail(r: Rect, size: Size, tail: seq<Option<Position>>, i: nat): (probe: Probe)
    ensures probe != Miss ==> i < |tail|
    decreases |tail| - i
  {
    if i >= |tail| then Miss
    else match tail[i]
      case None => Undefined
      case Some(p) => if HasCollision(r, Rect(p, size)) then Hit else ProbeTail(r, size, tail, i + 1)
  }

  /** The probe reports no collision exactly when every segment from i on is defined and clear of r. */
  lemma {:induction false} ProbeMissIff(r: Rect, size: Size, tail: seq<Option<Position>>, i: nat)
    ensures ProbeTail(r, size, tail, i) == Miss <==>
      forall k :: i <= k < |tail| ==> tail[k].Some? && !HasCollision(r, Rect(tail[k].value, size))
    decreases |tail| - i
  {
    if i < |tail| {
      ProbeMissIff(r, size, tail, i + 1);
    }
  }

  /** On a fully defined tail the probe never throws, and it hits exactly when some segment from i on collides with r. */
  lemma {:induction false} ProbeOnDefinedTail(r: Rect, size: Size, tail: seq<Option<Position>>, i: nat)
    requires forall k :: i <= k < |tail| ==> tail[k].Some?
    ensures ProbeTail(r, size, tail, i) != Undefined
    ensures ProbeTail(r, size, tail, i) == Hit <==>
      exists k :: i <= k < |tail| && HasCollision(r, Rect(tail[k].value, size))
    decreases |tail| - i
  {
    if i < |tail| {
      ProbeOnDefinedTail(r, size, tail, i + 1);
    }
  }

  /** The drawing side. Only the tail calls matter to the game: they read, and so trim, the history. */
  class Gpu {
    const snake: Snake

    constructor (snake: Snake)
      ensures this.snake == snake
    {
      this.snake := snake;
    }

    /**
     * `clearSnakeTail()` / `drawSnakeTail()`: gets the tail and reads the position of each
     * segment; the call fails at the first `undefined` one.
     */
    method PaintTail() returns (ok: bool)
      modifies snake`positionHistory
      ensures snake.positionHistory == Trimmed(old(snake.positionHistory), snake.eat)
      ensures ok == Defined(TailOf(old(snake.positionHistory), snake.eat))
    {
      var tail := snake.GetTail();
      var i := 0;
      while i < |tail|
        invariant 0 <= i <= |tail|
        invariant forall k :: 0 <= k < i ==> tail[k].Some?
      {
        if tail[i].None? {
          return false;
        }
        i := i + 1;
      }
      return true;
    }
  }

  class AnimationManager {
    const gpu: Gpu
    const snake: Snake
    const canvas: Rect
    const apple: Apple
    const score: Score
    const timer: Timer
    /** The handle of the last requested frame. */
    var lastAnimationFrame: nat
    /** The move closures, one per direction they were built for. */
    var bag: seq<Direction>
    /** Handles of the frames requested and not yet run or cancelled. */
    var pending: set<nat>
    /** The handle `requestAnimationFrame` returns next. */
    var nextFrame: nat

    /** The gpu draws the same snake the manager moves. */
    predicate Wired()
    {
      gpu.snake == snake
    }

    predicate ValidRolls(rolls: seq<Position>)
    {
      forall k :: 0 <= k < |rolls| ==> apple.ValidRoll(rolls[k])
    }

    constructor (gpu: Gpu, snake: Snake, canvas: Rect, apple: Apple, score: Score, timer: Timer)
      requires gpu.snake == snake
      ensures this.gpu == gpu && this.snake == snake && this.canvas == canvas
      ensures this.apple == apple && this.score == score && this.timer == timer
      ensures Wired()
      ensures lastAnimationFrame == 0 && bag == [] && pending == {}
    {
      this.gpu := gpu;
      this.snake := snake;
      this.canvas := canvas;
      this.apple := apple;
      this.score := score;
      this.timer := timer;
      lastAnimationFrame := 0;
      bag := [];
      pending := {};
      nextFrame := 1;
    }

    /** `run(direction)`: adds a move closure for the direction and requests a frame. */
    method Run(d: Direction)
      modifies this`bag, this`lastAnimationFrame, this`pending, this`nextFrame
      ensures bag == old(bag) + [d]
      ensures lastAnimationFrame == old(nextFrame) && nextFrame == old(nextFrame) + 1
      ensures pending == old(pending) + {lastAnimationFrame}
    {
      bag := bag + [d];
      lastAnimationFrame := nextFrame;
      pending := pending + {nextFrame};
      nextFrame := nextFrame + 1;
    }

    /** `stop()`: cancels the last requested frame and empties the bag. */
    method Stop()
      modifies this`bag, this`pending
      ensures bag == [] && pending == old(pending) - {lastAnimationFrame}
    {
      pending := pending - {lastAnimationFrame};
      bag := [];
    }

    /** `collisionWithTail(obj)`: probes the tail from its second segment on. */
    method CollisionWithTail(r: Rect) returns (probe: Probe)
      modifies snake`positionHistory
      ensures snake.positionHistory == Trimmed(old(snake.positionHistory), snake.eat)
      ensures probe == ProbeTail(r, snake.size, TailOf(old(snake.positionHistory), snake.eat), 1)
    {
      var tail := snake.GetTail();
      var i := 1;
      while i < |tail|
        invariant 1 <= i
        invariant ProbeTail(r, snake.size, tail, i) == ProbeTail(r, snake.size, tail, 1)
        decreases |tail| - i
      {
        match tail[i]
        case None =>
          return Undefined;
        case Some(p) =>
          if HasCollision(r, Rect(p, snake.size)) {
            return Hit;
          }
        i := i + 1;
      }
      return Miss;
    }

    /** The move phase of a step: only while both the score and the timer are playing. */
    method MoveSnake(d: Direction)
      modifies snake`position, snake`positionHistory
      ensures var moving := score.isPlaying && timer.isPlaying;
        && snake.position == (if moving then Moved(old(snake.position), d, snake.speed) else old(snake.position))
        && snake.positionHistory == (if moving then [snake.position] else []) + old(snake.positionHistory)
    {
      if score.isPlaying && timer.isPlaying {
        snake.Move(d);
        snake.RecordPosition(snake.position.x, snake.position.y);
      }
    }

    /**
     * Where the head loop of the apple relocation stops when it has drawn rolls up to k:
     * the first roll from k on that does not touch the head, or |rolls| when none is left.
     */
    function OffHead(head: Rect, rolls: seq<Position>, k: nat): (j: nat)
      requires k <= |rolls|
      ensures k <= j <= |rolls|
      decreases |rolls| - k
    {
      if k == |rolls| || !HasCollision(head, Rect(rolls[k], apple.size)) then k
      else OffHead(head, rolls, k + 1)
    }

    /**
     * Where the tail loop of the apple relocation stops, starting from roll k: the first
     * roll from k on whose probe of tail segments 1 and on is not a hit, or |rolls|.
     */
    function OffTail(tail: seq<Option<Position>>, rolls: seq<Position>, k: nat): (j: nat)
      requires k <= |rolls|
      ensures k <= j <= |rolls|
      decreases |rolls| - k
    {
      if k == |rolls| || ProbeTail(Rect(rolls[k], apple.size), snake.size, tail, 1) != Hit then k
      else OffTail(tail, rolls, k + 1)
    }

    /**
     * The apple relocation as a whole: how it ends and how many rolls it draws. The head
     * loop runs first; the tail loop starts from the roll the head loop settled on and
     * does not look at the head again.
     */
    function Relocation(head: Rect, tail: seq<Option<Position>>, rolls: seq<Position>): (r: (Outcome, nat))
      ensures r.1 <= |rolls|
      ensures r.0 != OutOfRolls ==> 0 < r.1
      ensures r.0 == OutOfRolls ==> r.1 == |rolls|
    {
      var m := OffHead(head, rolls, 0);
      if m == |rolls| then (OutOfRolls, |rolls|)
      else
        var t := OffTail(tail, rolls, m);
        if t == |rolls| then (OutOfRolls, |rolls|)
        else (if ProbeTail(Rect(rolls[t], apple.size), snake.size, tail, 1) == Miss then Done else UndefinedTail, t + 1)
    }

    /** The head loop rejects every roll before the one it stops at, and that one is clear of the head. */
    lemma {:induction false} OffHeadIsFirst(head: Rect, rolls: seq<Position>, k: nat)
      requires k <= |rolls|
      ensures forall j :: k <= j < OffHead(head, rolls, k) ==> HasCollision(head, Rect(rolls[j], apple.size))
      ensures OffHead(head, rolls, k) < |rolls| ==> !HasCollision(head, Rect(rolls[OffHead(head, rolls, k)], apple.size))
      decreases |rolls| - k
    {
      if k < |rolls| && HasCollision(head, Rect(rolls[k], apple.size)) {
        OffHeadIsFirst(head, rolls, k + 1);
      }
    }

    /** The tail loop rejects every roll before the one it stops at, each for a hit on the tail. */
    lemma {:induction false} OffTailIsFirst(tail: seq<Option<Position>>, rolls: seq<Position>, k: nat)
      requires k <= |rolls|
      ensures forall j :: k <= j < OffTail(tail, rolls, k) ==>
        ProbeTail(Rect(rolls[j], apple.size), snake.size, tail, 1) == Hit
      ensures OffTail(tail, rolls, k) < |rolls| ==>
        ProbeTail(Rect(rolls[OffTail(tail, rolls, k)], apple.size), snake.size, tail, 1) != Hit
      decreases |rolls| - k
    {
      if k < |rolls| && ProbeTail(Rect(rolls[k], apple.size), snake.size, tail, 1) == Hit {
        OffTailIsFirst(tail, rolls, k + 1);
      }
    }

    /**
     * When the tail loop accepts the roll the head loop settled on, the relocation ends on
     * that roll, and the apple is clear of the head. On a tail of at most one segment (the
     * first apple) the tail loop always accepts at once.
     */
    lemma RelocationOffHead(head: Rect, tail: seq<Option<Position>>, rolls: seq<Position>)
      ensures var m := OffHead(head, rolls, 0);
        m < |rolls| && ProbeTail(Rect(rolls[m], apple.size), snake.size, tail, 1) != Hit ==>
          && Relocation(head, tail, rolls).1 == m + 1
          && !HasCollision(head, Rect(rolls[m], apple.size))
      ensures |tail| <= 1 ==> Relocation(head, tail, rolls).0 != UndefinedTail
      ensures |tail| <= 1 && Relocation(head, tail, rolls).0 == Done ==>
        !HasCollision(head, Rect(rolls[Relocation(head, tail, rolls).1 - 1], apple.size))
    {
      OffHeadIsFirst(head, rolls, 0);
    }

    /**
     * What a step does once the head has hit the apple: grow, score, and relocate the apple,
     * re-rolling first while it touches the head and then while it touches the tail. The
     * second loop does not look at the head again.
     */
    method EatApple(rolls: seq<Position>) returns (outcome: Outcome, used: nat)
      requires ValidRolls(rolls)
      modifies snake`eat, snake`positionHistory, score`score, apple`position
      ensures snake.eat == old(snake.eat) + 1
      ensures score.score == if score.isPlaying then old(score.score) + score.step else old(score.score)
      ensures used <= |rolls|
      ensures 0 < used ==> apple.position == rolls[used - 1]
      ensures used == 0 ==> apple.position == old(apple.position)
      ensures var tail := TailOf(old(snake.positionHistory), snake.eat);
        && (outcome != OutOfRolls ==> snake.positionHistory == Trimmed(old(snake.positionHistory), snake.eat))
        && (outcome == OutOfRolls ==>
              && (snake.positionHistory == old(snake.positionHistory)
                  || snake.positionHistory == Trimmed(old(snake.positionHistory), snake.eat))
              && used == |rolls|
              && (used == 0 || HasCollision(snake.Body(), apple.Body())
                  || ProbeTail(apple.Body(), snake.size, tail, 1) == Hit))
        && (outcome == UndefinedTail ==> ProbeTail(apple.Body(), snake.size, tail, 1) == Undefined)
        && (outcome == Done ==> 0 < used && ProbeTail(apple.Body(), snake.size, tail, 1) == Miss)
      ensures (outcome, used) == Relocation(snake.Body(), TailOf(old(snake.positionHistory), snake.eat), rolls)
    {
      snake.SetEat();
      score.AddScore();
      if |rolls| == 0 {
        return OutOfRolls, 0;
      }
      used := RerollOffHead(rolls);
      if HasCollision(snake.Body(), apple.Body()) {
        return OutOfRolls, used;
      }
      outcome, used := RerollOffTail(rolls, used);
    }

    /** The head loop of the relocation: draw rolls while the apple touches the head. */
    method RerollOffHead(rolls: seq<Position>) returns (used: nat)
      requires ValidRolls(rolls) && 0 < |rolls|
      modifies apple`position
      ensures var m := OffHead(snake.Body(), rolls, 0);
        && used == (if m == |rolls| then |rolls| else m + 1)
        && (HasCollision(snake.Body(), apple.Body()) <==> m == |rolls|)
      ensures 0 < used <= |rolls| && apple.position == rolls[used - 1]
    {
      apple.NewPosition(rolls[0]);
      used := 1;
      while HasCollision(snake.Body(), apple.Body())
        invariant 0 < used <= |rolls| && apple.position == rolls[used - 1]
        invariant OffHead(snake.Body(), rolls, used - 1) == OffHead(snake.Body(), rolls, 0)
        decreases |rolls| - used
      {
        if used == |rolls| {
          return;
        }
        apple.NewPosition(rolls[used]);
        used := used + 1;
      }
    }

    /**
     * The tail loop of the relocation, from roll start - 1, where the apple is: draw rolls
     * while the apple touches tail segments 1 and on.
     */
    method RerollOffTail(rolls: seq<Position>, start: nat) returns (outcome: Outcome, used: nat)
      requires ValidRolls(rolls) && 0 < start <= |rolls| && apple.position == rolls[start - 1]
      modifies snake`positionHistory, apple`position
      ensures 0 < used <= |rolls| && apple.position == rolls[used - 1]
      ensures snake.positionHistory == Trimmed(old(snake.positionHistory), snake.eat)
      ensures var tail := TailOf(old(snake.positionHistory), snake.eat);
        var t := OffTail(tail, rolls, start - 1);
        var probe := ProbeTail(apple.Body(), snake.size, tail, 1);
        && (if t == |rolls| then outcome == OutOfRolls && used == |rolls| && probe == Hit
            else used == t + 1 && outcome == (if probe == Miss then Done else UndefinedTail))
        && (outcome == UndefinedTail ==> probe == Undefined)
    {
      ghost var h := snake.positionHistory;
      ghost var tail := TailOf(h, snake.eat);
      TrimKeepsTail(h, snake.eat);
      used := start;
      while true
        invariant start <= used <= |rolls| && apple.position == rolls[used - 1]
        invariant snake.positionHistory == h || snake.positionHistory == Trimmed(h, snake.eat)
        invariant used > start ==> snake.positionHistory == Trimmed(h, snake.eat)
        invariant OffTail(tail, rolls, used - 1) == OffTail(tail, rolls, start - 1)
        decreases |rolls| - used
      {
        var probe := CollisionWithTail(apple.Body());
        if probe == Undefined {
          return UndefinedTail, used;
        }
        if probe == Miss {
          break;
        }
        if used == |rolls| {
          return OutOfRolls, used;
        }
        apple.NewPosition(rolls[used]);
        used := used + 1;
      }
      outcome := Done;
    }

    /**
     * The move and eat phases of a step: the head moves while playing, and a head that
     * hits the apple grows the snake, scores, and relocates the apple.
     */
    method Advance(d: Direction, rolls: seq<Position>) returns (outcome: Outcome, used: nat)
      requires ValidRolls(rolls)
      modifies snake`position, snake`positionHistory, snake`eat, apple`position, score`score
      ensures Advanced(old(Now()), d, rolls, outcome, used, Now())
    {
      MoveSnake(d);
      ghost var recorded := snake.positionHistory;
      used := 0;
      outcome := Done;
      if HasCollision(snake.Body(), apple.Body()) {
        outcome, used := EatApple(rolls);
        ghost var tail := TailOf(recorded, snake.eat);
        if Defined(tail) {
          ProbeOnDefinedTail(apple.Body(), snake.size, tail, 1);
        }
      }
    }

    /**
     * The end of a step: a bite into the tail (looked for only once more than one apple is
     * eaten) and leaving the canvas each stop the timer's interval and end scoring; then
     * the snake and its tail are drawn, in both branches. A bite probe that throws ends the
     * step before any of this; a loss takes effect before the final draw, which may throw.
     */
    method CheckLoss() returns (outcome: Outcome)
      requires Wired()
      modifies snake`positionHistory, score`isPlaying, timer`live
      ensures Checked(old(Now()), outcome, Now())
    {
      ghost var tail := TailOf(snake.positionHistory, snake.eat);
      TrimKeepsTail(snake.positionHistory, snake.eat);
      if Defined(tail) {
        ProbeOnDefinedTail(snake.Body(), snake.size, tail, 1);
      }
      if snake.eat > 1 {
        var probe := CollisionWithTail(snake.Body());
        if probe == Undefined {
          return UndefinedTail;
        }
        if probe == Hit {
          score.isPlaying := false;
          timer.Stop();
        }
      }
      if !InCanvas(snake.Body(), canvas) {
        timer.Stop();
        score.isPlaying := false;
      }
      var ok := gpu.PaintTail();
      outcome := if ok then Done else UndefinedTail;
    }

    /** The state a step reads and writes: the snake, the apple, the score and the timer. */
    function Now(): World
      reads snake, apple, score, timer
    {
      World(snake.position, snake.positionHistory, snake.eat, apple.position,
            score.score, score.isPlaying, timer.isPlaying, timer.live, timer.idSetInterval)
    }

    /**
     * What one step promises, from state w to state v. With an unreadable tail the step
     * throws at once and nothing changes; otherwise the tail is trimmed and ReadableStep
     * holds.
     */
    predicate StepEffect(w: World, d: Direction, rolls: seq<Position>, outcome: Outcome, used: nat, v: World)
    {
      if Defined(TailOf(w.history, w.eat))
      then ReadableStep(w.(history := Trimmed(w.history, w.eat)), d, rolls, outcome, used, v)
      else outcome == UndefinedTail && used == 0 && v == w
    }

    /**
     * A step from state w, whose tail is readable and whose history is already trimmed, to
     * state v. The head moves only while both flags are set; the snake grows by one segment
     * and scores exactly when the moved head hits the apple; the step runs to the end
     * exactly when the new tail is free of `undefined` (unless the rolls run out), and always
     * when nothing is eaten. A step run to the end leaves the apple clear of tail segments 1
     * and on. Once the apple is placed and the bite probe has not thrown, a bite or leaving
     * the canvas ends scoring and stops the timer's interval but not its flag, even when the
     * final draw of the tail then throws.
     */
    predicate ReadableStep(w: World, d: Direction, rolls: seq<Position>, outcome: Outcome, used: nat, v: World)
    {
      var moving := w.scoring && w.timing;
      var head := Rect(if moving then Moved(w.position, d, snake.speed) else w.position, snake.size);
      var ate := HasCollision(head, Rect(w.apple, apple.size));
      var eat := w.eat + if ate then 1 else 0;
      var recorded := (if moving then [head.position] else []) + w.history;
      var tail := TailOf(recorded, eat);
      var placed := Rect(v.apple, apple.size);
      var applePlaced := outcome != OutOfRolls && (ate ==> ProbeTail(placed, snake.size, tail, 1) == Miss);
      var biteThrew := eat > 1 && ProbeTail(head, snake.size, tail, 1) == Undefined;
      var bitten := eat > 1 && ProbeTail(head, snake.size, tail, 1) == Hit;
      var lost := applePlaced && !biteThrew && (bitten || !InCanvas(head, canvas));
      && v.position == head.position
      && v.eat == eat
      && v.points == (if ate && w.scoring then w.points + score.step else w.points)
      && v.timing == w.timing && v.interval == w.interval
      && used <= |rolls|
      && (outcome != OutOfRolls ==> v.history == Trimmed(recorded, eat) && (outcome == Done <==> Defined(tail)))
      && (!ate ==> outcome == Done && used == 0)
      && (0 < used ==> v.apple == rolls[used - 1])
      && (used == 0 ==> v.apple == w.apple)
      && (outcome == OutOfRolls ==>
            && ate && used == |rolls|
            && (used == 0 || HasCollision(head, placed) || ProbeTail(placed, snake.size, tail, 1) == Hit))
      && (outcome == Done && ate ==> 0 < used && ProbeTail(placed, snake.size, tail, 1) == Miss)
      && v.scoring == (w.scoring && !lost)
      && v.live == (if lost then w.live - {w.interval} else w.live)
      && (ate ==> var r := Relocation(head, tail, rolls);
            used == r.1 && (if r.0 == Done then outcome != OutOfRolls else outcome == r.0))
    }

    /**
     * The first apple eaten is relocated off the head: the tail then has one segment, and
     * the tail loop, which starts at segment 1, keeps the roll the head loop settled on.
     */
    lemma FirstAppleLandsOffHead(w: World, d: Direction, rolls: seq<Position>, outcome: Outcome, used: nat, v: World)
      requires ReadableStep(w, d, rolls, outcome, used, v)
      requires w.eat == 0 && v.eat == 1 && outcome != OutOfRolls
      ensures 0 < used && used - 1 == OffHead(Rect(v.position, snake.size), rolls, 0)
      ensures !HasCollision(Rect(v.position, snake.size), Rect(v.apple, apple.size))
    {
      var moving := w.scoring && w.timing;
      var head := Rect(v.position, snake.size);
      var recorded := (if moving then [head.position] else []) + w.history;
      var tail := TailOf(recorded, 1);
      RelocationOffHead(head, tail, rolls);
    }

    /**
     * The move and eat phases, from w to v: the head moves while both flags are set, and a
     * head that hits the apple grows the snake, scores while playing and relocates the
     * apple, first off the head and then off tail segments 1 and on.
     */
    predicate Advanced(w: World, d: Direction, rolls: seq<Position>, outcome: Outcome, used: nat, v: World)
    {
      var moving := w.scoring && w.timing;
      var head := if moving then Moved(w.position, d, snake.speed) else w.position;
      var ate := HasCollision(Rect(head, snake.size), Rect(w.apple, apple.size));
      var recorded := (if moving then [head] else []) + w.history;
      var tail := TailOf(recorded, v.eat);
      var placed := Rect(v.apple, apple.size);
      && v.position == head
      && v.eat == w.eat + (if ate then 1 else 0)
      && v.points == (if ate && w.scoring then w.points + score.step else w.points)
      && v.scoring == w.scoring && v.timing == w.timing && v.live == w.live && v.interval == w.interval
      && used <= |rolls|
      && (0 < used ==> v.apple == rolls[used - 1])
      && (used == 0 ==> v.apple == w.apple)
      && (!ate ==> outcome == Done && used == 0 && v.history == recorded)
      && (ate && outcome != OutOfRolls ==> v.history == Trimmed(recorded, v.eat))
      && (outcome == OutOfRolls ==>
            && ate && used == |rolls|
            && (used == 0 || HasCollision(Rect(head, snake.size), placed)
                || ProbeTail(placed, snake.size, tail, 1) == Hit))
      && (outcome == UndefinedTail ==> ate && !Defined(tail) && ProbeTail(placed, snake.size, tail, 1) == Undefined)
      && (outcome == Done && ate ==> 0 < used && ProbeTail(placed, snake.size, tail, 1) == Miss)
      && (ate ==> (outcome, used) == Relocation(Rect(head, snake.size), tail, rolls))
    }

    /**
     * The loss check and the final draw, from w to v: unless the bite probe throws, a bite
     * (once more than one apple is eaten) or leaving the canvas ends scoring and cancels the
     * interval; the history is trimmed, and the step ends normally exactly when the tail
     * has no `undefined` segment.
     */
    predicate Checked(w: World, outcome: Outcome, v: World)
    {
      var tail := TailOf(w.history, w.eat);
      var body := Rect(w.position, snake.size);
      var biteThrew := w.eat > 1 && ProbeTail(body, snake.size, tail, 1) == Undefined;
      var bitten := w.eat > 1 && ProbeTail(body, snake.size, tail, 1) == Hit;
      var lost := !biteThrew && (bitten || !InCanvas(body, canvas));
      && v == w.(history := Trimmed(w.history, w.eat), scoring := w.scoring && !lost,
                 live := if lost then w.live - {w.interval} else w.live)
      && (outcome == Done <==> Defined(tail))
      && outcome != OutOfRolls
    }

    /**
     * The two phases make up a step: the move and eat phase, followed, when it ends
     * normally, by the loss check and the final draw.
     */
    lemma AdvanceThenCheck(w: World, d: Direction, rolls: seq<Position>, advanced: Outcome, used: nat,
                           mid: World, outcome: Outcome, v: World)
      requires Defined(TailOf(w.history, w.eat)) && w.history == Trimmed(w.history, w.eat)
      requires Advanced(w, d, rolls, advanced, used, mid)
      requires advanced != Done ==> outcome == advanced && v == mid
      requires advanced == Done ==> Checked(mid, outcome, v)
      ensures ReadableStep(w, d, rolls, outcome, used, v)
      ensures used <= |rolls| && v.live <= w.live
    {
      TailDefinedIff(w.history, w.eat);
      var moving := w.scoring && w.timing;
      var recorded := (if moving then [mid.position] else []) + w.history;
      TailDefinedIff(recorded, w.eat);
      TrimKeepsTail(recorded, mid.eat);
      var tail := TailOf(recorded, mid.eat);
      if Defined(tail) {
        ProbeOnDefinedTail(Rect(mid.apple, apple.size), snake.size, tail, 1);
      }
    }

    /**
     * One call of the move closure `builderSnakeMove(d)` builds: clear the tail, move while
     * playing, eat the apple, check for a bite and for the bounds, draw the tail.
     */
    method Step(d: Direction, rolls: seq<Position>) returns (outcome: Outcome, used: nat)
      requires Wired() && ValidRolls(rolls)
      modifies snake`position, snake`positionHistory, snake`eat, apple`position
      modifies score`score, score`isPlaying, timer`live
      ensures StepEffect(old(Now()), d, rolls, outcome, used, Now())
      ensures used <= |rolls| && timer.live <= old(timer.live)
    {
      var ok := gpu.PaintTail();
      if !ok {
        ShortHistoryIsNotTrimmed(old(snake.positionHistory), snake.eat);
        return UndefinedTail, 0;
      }
      TrimKeepsTail(old(snake.positionHistory), snake.eat);
      assert Now() == old(Now()).(history := Trimmed(old(snake.positionHistory), snake.eat));
      outcome, used := StepOnReadableTail(d, rolls);
    }

    /** A step whose tail has just been drawn without error: move, eat, check, draw again. */
    method StepOnReadableTail(d: Direction, rolls: seq<Position>) returns (outcome: Outcome, used: nat)
      requires Wired() && ValidRolls(rolls) && snake.TailReadable()
      requires snake.positionHistory == Trimmed(snake.positionHistory, snake.eat)
      modifies snake`position, snake`positionHistory, snake`eat, apple`position
      modifies score`score, score`isPlaying, timer`live
      ensures ReadableStep(old(Now()), d, rolls, outcome, used, Now())
      ensures used <= |rolls| && timer.live <= old(timer.live)
    {
      ghost var w := Now();
      outcome, used := Advance(d, rolls);
      ghost var advanced, mid := outcome, Now();
      if outcome == Done {
        outcome := CheckLoss();
      }
      AdvanceThenCheck(w, d, rolls, advanced, used, mid, outcome, Now());
    }

    /**
     * The frame callback (`catling`) for the requested frame h: runs every closure in the
     * bag in order, then requests the next frame. A closure that throws ends the callback
     * before that request, so no further frame follows.
     */
    method Frame(h: nat, rolls: seq<Position>) returns (outcome: Outcome, used: nat)
      requires Wired() && ValidRolls(rolls) && h in pending
      modifies this`pending, this`lastAnimationFrame, this`nextFrame
      modifies snake`position, snake`positionHistory, snake`eat, apple`position
      modifies score`score, score`isPlaying, timer`live
      ensures bag == old(bag) && used <= |rolls| && timer.live <= old(timer.live)
      ensures |bag| == 1 ==> StepEffect(old(Now()), bag[0], rolls, outcome, used, Now())
      ensures outcome == Done ==>
        && lastAnimationFrame == old(nextFrame) && nextFrame == old(nextFrame) + 1
        && pending == (old(pending) - {h}) + {lastAnimationFrame}
      ensures outcome != Done ==>
        && lastAnimationFrame == old(lastAnimationFrame) && nextFrame == old(nextFrame)
        && pending == old(pending) - {h}
      ensures bag == [] ==> outcome == Done && unchanged(snake, apple, score, timer)
      ensures !old(snake.TailReadable()) && bag != [] ==>
        outcome == UndefinedTail && unchanged(snake, apple, score, timer)
    {
      pending := pending - {h};
      outcome, used := RunBag(rolls);
      if outcome == Done {
        lastAnimationFrame := nextFrame;
        pending := pending + {nextFrame};
        nextFrame := nextFrame + 1;
      }
    }

    /** The body of `catling`: every closure in the bag, in order, until one throws. */
    method RunBag(rolls: seq<Position>) returns (outcome: Outcome, used: nat)
      requires Wired() && ValidRolls(rolls)
      modifies snake`position, snake`positionHistory, snake`eat, apple`position
      modifies score`score, score`isPlaying, timer`live
      ensures used <= |rolls| && timer.live <= old(timer.live)
      ensures |bag| == 1 ==> StepEffect(old(Now()), bag[0], rolls, outcome, used, Now())
      ensures bag == [] ==> outcome == Done && unchanged(snake, apple, score, timer)
      ensures !old(snake.TailReadable()) && bag != [] ==>
        outcome == UndefinedTail && unchanged(snake, apple, score, timer)
    {
      var i := 0;
      used := 0;
      outcome := Done;
      while i < |bag|
        invariant 0 <= i <= |bag| && used <= |rolls| && ValidRolls(rolls[used..])
        invariant timer.live <= old(timer.live)
        invariant i == 0 ==> used == 0
        invariant i == 1 && |bag| == 1 ==> StepEffect(old(Now()), bag[0], rolls, Done, used, Now())
        invariant i == 0 ==> unchanged(snake, apple, score, timer)
        invariant !old(snake.TailReadable()) ==> i == 0
        invariant outcome == Done
      {
        assert i == 0 ==> rolls[used..] == rolls;
        var u;
        outcome, u := Step(bag[i], rolls[used..]);
        if outcome != Done {
          if i == 0 {
            used := u;
          }
          return;
        }
        used := used + u;
        i := i + 1;
      }
    }
  }
}
