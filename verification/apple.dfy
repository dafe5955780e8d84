/** The apple (`getApple` / `AppleFactory`): a 10 by 10 square placed at random. */
module Apples {

  import opened Geometry

  class Apple {
    /** `style`: 10 by 10 pixels. */
    const size: Size
    /** The canvas the random positions are drawn for. */
    const canvas: Rect
    var position: Position

    /**
     * A pair of random integers `newPosition` may draw: x below the canvas width minus
     * the apple's height, y below the canvas height minus its width (the script crosses
     * the two; both are 10).
     */
    predicate ValidRoll(roll: Position)
    {
      && RandomBelow(canvas.size.width - size.height, roll.x)
      && RandomBelow(canvas.size.height - size.width, roll.y)
    }

    constructor (canvas: Rect, roll: Position)
      requires RandomBelow(canvas.size.width - 10, roll.x)
      requires RandomBelow(canvas.size.height - 10, roll.y)
      ensures size == Size(10, 10) && this.canvas == canvas && position == roll
    {
      size := Size(10, 10);
      this.canvas := canvas;
      position := roll;
    }

    /** The apple as seen by the collision engine. */
    function Body(): Rect
      reads this
    {
      Rect(position, size)
    }

    /** `newPosition()`, with the random integers supplied by the caller. */
    method NewPosition(roll: Position)
      requires ValidRoll(roll)
      modifies this`position
      ensures position == roll
    {
      position := Position(roll.x, roll.y);
    }

    /** `reload()`: a new random position. */
    method Reload(roll: Position)
      requires ValidRoll(roll)
      modifies this`position
      ensures position == roll
    {
      NewPosition(roll);
    }
  }
}
