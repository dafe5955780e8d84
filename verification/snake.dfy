/**
 * The snake (`getSnake` / `SnakeFactory`): a head position moved by `speed` pixels per
 * step, a most-recent-first history of head positions, and the eat count that decides
 * how many tail segments are sampled from that history.
 */
module Snakes {

  import opened Options
  import opened Geometry

  /** The four values of the key mapping: `left`, `top`, `right`, `down`. */
  datatype Direction = Left | Top | Right | Down
  {
    predicate Horizontal()
    {
      this == Left || this == Right
    }

    /** The direction a 180-degree turn leads to. */
    function Opposite(): Direction
    {
      match this
      case Left => Right
      case Right => Left
      case Top => Down
      case Down => Top
    }
  }

  /**
   * The effect of `move[d]`: `rmvPx` for left and top, `addPx` for right and down, each
   * on one coordinate.
   */
  function Moved(p: Position, d: Direction, speed: int): (q: Position)
    ensures d.Horizontal() ==> q.y == p.y && q.x - p.x == (if d == Left then -speed else speed)
    ensures !d.Horizontal() ==> q.x == p.x && q.y - p.y == (if d == Top then -speed else speed)
  {
    match d
    case Left => Position(p.x - speed, p.y)
    case Top => Position(p.x, p.y - speed)
    case Right => Position(p.x + speed, p.y)
    case Down => Position(p.x, p.y + speed)
  }

  /** The head after n steps in direction d. */
  function MovedTimes(p: Position, d: Direction, speed: int, n: nat): Position
  {
    if n == 0 then p else Moved(MovedTimes(p, d, speed, n - 1), d, speed)
  }

  /** A move followed by a move in the opposite direction returns to the start. */
  lemma MovedThenOpposite(p: Position, d: Direction, speed: int)
    ensures Moved(Moved(p, d, speed), d.Opposite(), speed) == p
  {
  }

  /** n steps of `speed` pixels add up to one step of n * speed pixels. */
  lemma {:induction false} MovedTimesIsOneLongMove(p: Position, d: Direction, speed: int, n: nat)
    ensures MovedTimes(p, d, speed, n) == Moved(p, d, n * speed)
  {
    if n > 0 {
      MovedTimesIsOneLongMove(p, d, speed, n - 1);
      assert (n - 1) * speed + speed == n * speed;
    }
  }

  /** The `step` of getTail: one visible segment every four recorded positions. */
  const TailStride: nat := 4

  /** `positionHistory[j]`, which is `undefined` past the end of the history. */
  function At(h: seq<Position>, j: int): (e: Option<Position>)
    ensures e.Some? <==> 0 <= j < |h|
  {
    if 0 <= j < |h| then Some(h[j]) else None
  }

  /** The tail getTail samples: segment i is history entry 4 * (i + 1). */
  function TailOf(h: seq<Position>, eat: nat): (tail: seq<Option<Position>>)
    ensures |tail| == eat
  {
    seq(eat, i => At(h, TailStride * (i + 1)))
  }

  /** The history after getTail's `splice(4 * (eat + 1))`. */
  function Trimmed(h: seq<Position>, eat: nat): (t: seq<Position>)
    ensures |t| <= |h| && |t| <= TailStride * (eat + 1)
    ensures |t| < |h| ==> |t| == TailStride * (eat + 1)
  {
    if |h| <= TailStride * (eat + 1) then h else h[..TailStride * (eat + 1)]
  }

  /** Every tail segment is a real position (none is `undefined`). */
  predicate Defined(tail: seq<Option<Position>>)
  {
    forall i :: 0 <= i < |tail| ==> tail[i].Some?
  }

  /** The sampled tail is free of `undefined` exactly when the history is long enough. */
  lemma TailDefinedIff(h: seq<Position>, eat: nat)
    ensures Defined(TailOf(h, eat)) <==> eat == 0 || |h| > TailStride * eat
  {
    if eat > 0 && Defined(TailOf(h, eat)) {
      assert TailOf(h, eat)[eat - 1].Some?;
    }
  }

  /**
   * Trimming keeps a prefix of the history that holds every sampled entry, so a second
   * getTail returns the same tail and trims nothing more.
   */
  lemma TrimKeepsTail(h: seq<Position>, eat: nat)
    ensures |Trimmed(h, eat)| == if |h| <= TailStride * (eat + 1) then |h| else TailStride * (eat + 1)
    ensures Trimmed(h, eat) == h[..|Trimmed(h, eat)|]
    ensures TailOf(Trimmed(h, eat), eat) == TailOf(h, eat)
    ensures Trimmed(Trimmed(h, eat), eat) == Trimmed(h, eat)
  {
    var t := Trimmed(h, eat);
    forall i | 0 <= i < eat
      ensures TailOf(t, eat)[i] == TailOf(h, eat)[i]
    {
      assert TailStride * (i + 1) < TailStride * (eat + 1);
    }
  }

  /** A history too short for its tail is left untouched by trimming. */
  lemma ShortHistoryIsNotTrimmed(h: seq<Position>, eat: nat)
    requires !Defined(TailOf(h, eat))
    ensures Trimmed(h, eat) == h
  {
    TailDefinedIff(h, eat);
  }

  class Snake {
    /** `params.speed`. */
    const speed: int
    /** `style`: 10 by 10 pixels. */
    const size: Size
    /** The canvas the random positions are drawn for. */
    const canvas: Rect
    var position: Position
    /** Past head positions, most recent first. */
    var positionHistory: seq<Position>
    /** The number of apples eaten. */
    var eat: nat

    /** A pair of random integers `getSnakePositionRandom` may return for this canvas. */
    predicate ValidRoll(roll: Position)
    {
      && RandomBelow(canvas.size.width - size.width, roll.x)
      && RandomBelow(canvas.size.height - size.height, roll.y)
    }

    constructor (canvas: Rect, roll: Position)
      requires RandomBelow(canvas.size.width - 10, roll.x)
      requires RandomBelow(canvas.size.height - 10, roll.y)
      ensures speed == 3 && size == Size(10, 10) && this.canvas == canvas
      ensures position == roll && positionHistory == [] && eat == 0
    {
      speed := 3;
      size := Size(10, 10);
      this.canvas := canvas;
      position := roll;
      positionHistory := [];
      eat := 0;
    }

    /** The head as seen by the collision engine. */
    function Body(): Rect
      reads this
    {
      Rect(position, size)
    }

    /** The tail getTail would sample now has no `undefined` segment. */
    predicate TailReadable()
      reads this
    {
      Defined(TailOf(positionHistory, eat))
    }

    /** `move[d]()`. */
    method Move(d: Direction)
      modifies this`position
      ensures position == Moved(old(position), d, speed)
    {
      match d
      case Left => position := position.(x := position.x - speed);
      case Top => position := position.(y := position.y - speed);
      case Right => position := position.(x := position.x + speed);
      case Down => position := position.(y := position.y + speed);
    }

    /** `randomPosition()`, with the random integers supplied by the caller. */
    method RandomPosition(roll: Position)
      requires ValidRoll(roll)
      modifies this`position
      ensures position == roll
    {
      position := Position(roll.x, roll.y);
    }

    /** `recordPosition(x, y)`: the new position becomes entry 0, older ones move up by one. */
    method RecordPosition(x: int, y: int)
      modifies this`positionHistory
      ensures positionHistory == [Position(x, y)] + old(positionHistory)
      ensures forall i :: 0 < i < |positionHistory| ==> positionHistory[i] == old(positionHistory)[i - 1]
    {
      positionHistory := [Position(x, y)] + positionHistory;
    }

    /**
     * `getTail()`: samples `eat` segments at stride 4 and then drops every history entry
     * past the last sampled one.
     */
    method GetTail() returns (tail: seq<Option<Position>>)
      modifies this`positionHistory
      ensures |tail| == eat
      ensures forall i :: 0 <= i < eat ==> tail[i] == At(old(positionHistory), TailStride * (i + 1))
      ensures tail == TailOf(old(positionHistory), eat)
      ensures positionHistory == Trimmed(old(positionHistory), eat)
    {
      tail := [];
      var j := TailStride;
      var i := 0;
      while i < eat
        invariant 0 <= i <= eat
        invariant j == TailStride * (i + 1)
        invariant |tail| == i
        invariant forall k :: 0 <= k < i ==> tail[k] == At(positionHistory, TailStride * (k + 1))
      {
        tail := tail + [At(positionHistory, j)];
        j := j + TailStride;
        i := i + 1;
      }
      if j < |positionHistory| {
        positionHistory := positionHistory[..j];
      }
    }

    /** `setEat()`. */
    method SetEat()
      modifies this`eat
      ensures eat == old(eat) + 1
    {
      eat := eat + 1;
    }

    /** `reload()`: empty history, nothing eaten, a new random position. */
    method Reload(roll: Position)
      requires ValidRoll(roll)
      modifies this`positionHistory, this`eat, this`position
      ensures positionHistory == [] && eat == 0 && position == roll
    {
      positionHistory := [];
      eat := 0;
      RandomPosition(roll);
    }
  }
}
