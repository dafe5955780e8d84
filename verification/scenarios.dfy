/**
 * Whole-game runs on a 500 by 500 canvas, driven through the session's event methods
 * with the random positions fixed.
 */
module Scenarios {

  import opened Options
  import opened Geometry
  import opened Snakes
  import opened Animation
  import opened Game

  /** Arrow right, then ten frames with the apple far away: the head advances 30 pixels and nothing is lost or scored. */
  method TenFramesRight() returns (head: Position, points: int, playing: bool)
    ensures head == Position(130, 100) && points == 0 && playing
  {
    var session := new Session(500, 500, Position(100, 100), Position(400, 400));
    session.KeyDown(39);
    var n := 0;
    while n < 10
      invariant 0 <= n <= 10
      invariant session.Valid()
      invariant session.snake.position == MovedTimes(Position(100, 100), Right, 3, n) && session.snake.eat == 0
      invariant session.apple.position == Position(400, 400)
      invariant session.score.score == 0 && session.score.isPlaying && session.timer.isPlaying
      invariant session.animationManager.bag == [Right]
      invariant session.animationManager.pending == {session.animationManager.lastAnimationFrame}
    {
      MovedTimesIsOneLongMove(Position(100, 100), Right, 3, n);
      var outcome, used := session.AnimationFrame(session.animationManager.lastAnimationFrame, []);
      n := n + 1;
    }
    MovedTimesIsOneLongMove(Position(100, 100), Right, 3, 10);
    head := session.snake.position;
    points := session.score.score;
    playing := session.score.isPlaying && session.timer.isPlaying;
  }

  /**
   * Arrow right from x = 489: the first frame carries the right edge to 502, past the
   * canvas. Scoring ends and the timer's interval is cancelled, yet the timer's own flag
   * stays set; the next frame no longer moves the head.
   */
  method RightIntoTheEdge() returns (afterFirst: Position, afterSecond: Position, scoring: bool,
                                     timerFlag: bool, intervals: set<nat>)
    ensures afterFirst == afterSecond == Position(492, 100)
    ensures !scoring && timerFlag && intervals == {}
  {
    var session := new Session(500, 500, Position(489, 100), Position(100, 100));
    session.KeyDown(39);
    assert Moved(Position(489, 100), Right, 3) == Position(492, 100);
    assert !HasCollision(Rect(Position(492, 100), Size(10, 10)), Rect(Position(100, 100), Size(10, 10)));
    assert !InCanvas(Rect(Position(492, 100), Size(10, 10)), session.canvas);
    var outcome, used := session.AnimationFrame(session.animationManager.lastAnimationFrame, []);
    afterFirst := session.snake.position;
    assert !session.score.isPlaying && session.timer.live == {};
    outcome, used := session.AnimationFrame(session.animationManager.lastAnimationFrame, []);
    afterSecond := session.snake.position;
    scoring := session.score.isPlaying;
    timerFlag := session.timer.isPlaying;
    intervals := session.timer.live;
  }

  /**
   * The apple lies under the head at x = 489. Arrow right: the first frame eats it while
   * carrying the head past the right edge, so the point is scored, scoring ends and the
   * interval is cancelled; then the final tail draw reads an `undefined` segment and throws.
   */
  method EdgeAppleLosesThenThrows() returns (first: Outcome, points: int, scoring: bool, intervals: set<nat>)
    ensures first == UndefinedTail && points == 1 && !scoring && intervals == {}
  {
    var session := new Session(500, 500, Position(489, 100), Position(489, 100));
    session.KeyDown(39);
    assert Moved(Position(489, 100), Right, 3) == Position(492, 100);
    assert HasCollision(Rect(Position(492, 100), Size(10, 10)), Rect(Position(489, 100), Size(10, 10)));
    assert !InCanvas(Rect(Position(492, 100), Size(10, 10)), session.canvas);
    ghost var tail := TailOf([Position(492, 100)] + Trimmed([], 0), 1);
    assert tail[0] == None && !Defined(tail);
    assert ProbeTail(Rect(Position(300, 300), Size(10, 10)), Size(10, 10), tail, 1) == Miss;
    var used;
    first, used := session.AnimationFrame(session.animationManager.lastAnimationFrame, [Position(300, 300)]);
    points := session.score.score;
    scoring := session.score.isPlaying;
    intervals := session.timer.live;
  }

  /**
   * The apple sits 4 pixels right of the head. The first frame eats it while only one
   * position is recorded, so drawing the tail reads history entry 4, which does not exist,
   * and the frame throws, leaving the tail unreadable.
   */
  method EarlyApple() returns (session: Session, first: Outcome)
    ensures fresh(session.snake) && fresh(session.apple) && fresh(session.score) && fresh(session.timer)
    ensures fresh(session.animationManager) && fresh(session.keyboardManager)
    ensures session.Valid()
    ensures first == UndefinedTail && !session.snake.TailReadable() && session.score.score == 1
    ensures session.keyboardManager.lastKeyCode == Some(39)
    ensures session.canvas == Rect(Position(0, 0), Size(500, 500))
    ensures session.snake.size == Size(10, 10) && session.apple.size == Size(10, 10)
  {
    session := new Session(500, 500, Position(100, 100), Position(104, 100));
    session.KeyDown(39);
    ghost var recorded := [Position(103, 100)] + Trimmed([], 0);
    assert recorded == [Position(103, 100)];
    ghost var tail := TailOf(recorded, 1);
    assert tail[0] == None && !Defined(tail);
    assert ProbeTail(Rect(Position(300, 300), Size(10, 10)), Size(10, 10), tail, 1) == Miss;
    var used;
    first, used := session.AnimationFrame(session.animationManager.lastAnimationFrame, [Position(300, 300)]);
    assert session.snake.positionHistory == recorded;
  }

  /**
   * After the early apple, every frame throws before moving and the space-bar reload
   * throws before reloading: the game is stuck.
   */
  method EarlyAppleFreezesTheGame() returns (first: Outcome, later: Outcome, reloaded: bool, points: int)
    ensures first == UndefinedTail && later == UndefinedTail && !reloaded && points == 1
  {
    var session;
    session, first := EarlyApple();
    session.KeyDown(40);
    var used;
    later, used := session.AnimationFrame(session.animationManager.lastAnimationFrame, []);
    reloaded := session.Reload(Position(200, 200), Position(50, 50));
    points := session.score.score;
  }
}
