/**
 * The game session the page's load handler builds: one canvas, snake, apple, score,
 * timer, gpu, animation manager and keyboard manager, wired together. The events the
 * browser delivers become methods: a key press, a requested frame, a timer interval,
 * and the space-bar reload.
 */
module Game {

  import opened Options
  import opened Geometry
  import opened Snakes
  import opened Apples
  import opened Counters
  import opened Animation
  import opened Keyboard

  class Session {
    const canvas: Rect
    const snake: Snake
    const apple: Apple
    const score: Score
    const timer: Timer
    const gpu: Gpu
    const animationManager: AnimationManager
    const keyboardManager: KeyboardManager

    /** Every component sees the same collaborators, and the keyboard manager's state holds. */
    ghost predicate Valid()
      reads keyboardManager, animationManager, timer
    {
      && canvas.position == Position(0, 0)
      && snake.canvas == canvas && apple.canvas == canvas
      && gpu.snake == snake
      && animationManager.gpu == gpu && animationManager.snake == snake
      && animationManager.canvas == canvas && animationManager.apple == apple
      && animationManager.score == score && animationManager.timer == timer
      && keyboardManager.animationManager == animationManager && keyboardManager.timer == timer
      && keyboardManager.Valid()
    }

    /** The load handler, with the canvas size read from its attributes and the random positions supplied. */
    constructor (width: int, height: int, snakeRoll: Position, appleRoll: Position)
      requires RandomBelow(width - 10, snakeRoll.x) && RandomBelow(height - 10, snakeRoll.y)
      requires RandomBelow(width - 10, appleRoll.x) && RandomBelow(height - 10, appleRoll.y)
      ensures Valid()
      ensures fresh(snake) && fresh(apple) && fresh(score) && fresh(timer)
      ensures fresh(gpu) && fresh(animationManager) && fresh(keyboardManager)
      ensures canvas == Rect(Position(0, 0), Size(width, height))
      ensures snake.position == snakeRoll && snake.positionHistory == [] && snake.eat == 0
      ensures snake.speed == 3 && snake.size == Size(10, 10)
      ensures apple.position == appleRoll && apple.size == Size(10, 10)
      ensures score.score == 0 && score.step == 1 && score.isPlaying
      ensures timer.second == timer.defaultSecond == 60 && timer.isPlaying && timer.live == {}
      ensures animationManager.bag == [] && animationManager.pending == {}
      ensures keyboardManager.firstKeydown && keyboardManager.firstTimer
    {
      var c := Rect(Position(0, 0), Size(width, height));
      var sc := new Score();
      var t := new Timer();
      var sn := new Snake(c, snakeRoll);
      var a := new Apple(c, appleRoll);
      var g := new Gpu(sn);
      var am := new AnimationManager(g, sn, c, a, sc, t);
      var km := new KeyboardManager(am, t);
      canvas := c;
      snake := sn;
      apple := a;
      score := sc;
      timer := t;
      gpu := g;
      animationManager := am;
      keyboardManager := km;
    }

    /** A keydown event with an arrow or other key. */
    method KeyDown(keyCode: int)
      requires Valid()
      modifies keyboardManager, animationManager`bag, animationManager`lastAnimationFrame
      modifies animationManager`pending, animationManager`nextFrame
      modifies timer`idSetInterval, timer`live, timer`nextHandle
      ensures Valid()
      ensures Mapping(keyCode).Some? && old(keyboardManager.CanChangeDirection(keyCode)) ==>
        animationManager.bag == [Mapping(keyCode).value] &&
        animationManager.pending == {animationManager.lastAnimationFrame}
    {
      keyboardManager.SetKeydown(keyCode);
    }

    /**
     * The requested frame h runs. A step that throws leaves no frame requested; a snake
     * whose tail is unreadable never moves again.
     */
    method AnimationFrame(h: nat, rolls: seq<Position>) returns (outcome: Outcome, used: nat)
      requires Valid() && h in animationManager.pending && animationManager.ValidRolls(rolls)
      modifies animationManager`pending, animationManager`lastAnimationFrame, animationManager`nextFrame
      modifies snake`position, snake`positionHistory, snake`eat, apple`position
      modifies score`score, score`isPlaying, timer`live
      ensures Valid()
      ensures animationManager.StepEffect(old(animationManager.Now()), animationManager.bag[0], rolls, outcome, used,
                                          animationManager.Now())
      ensures outcome == Done ==> animationManager.pending == {animationManager.lastAnimationFrame}
      ensures outcome != Done ==> animationManager.pending == {}
      ensures !old(snake.TailReadable()) ==> unchanged(snake, apple, score, timer)
    {
      outcome, used := animationManager.Frame(h, rolls);
    }

    /** The one-second interval fires (it is live, so it was scheduled and not cancelled). */
    method SecondElapses()
      requires Valid() && timer.live != {}
      modifies timer`second, timer`isPlaying, timer`live
      ensures Valid()
      ensures timer.second == old(timer.second) - 1
      ensures timer.isPlaying == (old(timer.isPlaying) && timer.second >= 1)
      ensures timer.live == if timer.second >= 1 then old(timer.live) else {}
    {
      timer.Tick();
    }

    /**
     * The space-bar handler: clear the drawing (which reads the tail), reload the snake,
     * apple, score and timer, and return the keyboard manager to its first-key state.
     * When the tail is unreadable the clearing throws and nothing is reloaded.
     */
    method Reload(snakeRoll: Position, appleRoll: Position) returns (ok: bool)
      requires Valid() && snake.ValidRoll(snakeRoll) && apple.ValidRoll(appleRoll)
      modifies snake`position, snake`positionHistory, snake`eat, apple`position
      modifies score`score, score`isPlaying, timer`live, timer`isPlaying, timer`second
      modifies keyboardManager, animationManager`bag, animationManager`pending
      ensures Valid()
      ensures ok == old(snake.TailReadable())
      ensures !ok ==> unchanged(snake, apple, score, timer, keyboardManager, animationManager)
      ensures ok ==>
        && snake.position == snakeRoll && snake.positionHistory == [] && snake.eat == 0
        && apple.position == appleRoll
        && score.score == 0 && score.isPlaying
        && timer.second == timer.defaultSecond && timer.isPlaying && timer.live == {}
        && animationManager.bag == [] && animationManager.pending == {}
        && keyboardManager.firstKeydown && keyboardManager.firstTimer
        && keyboardManager.lastKeyCode == None
    {
      ok := gpu.PaintTail();
      if !ok {
        ShortHistoryIsNotTrimmed(old(snake.positionHistory), snake.eat);
        return;
      }
      snake.Reload(snakeRoll);
      apple.Reload(appleRoll);
      score.Reload();
      timer.Reload();
      keyboardManager.Reload();
    }
  }
}
