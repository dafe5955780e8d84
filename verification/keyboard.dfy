/**
 * The keyboard manager (`getKeyboardManager`): maps arrow keys to directions, starts the
 * timer on the first arrow key, and restarts the animation for every direction change
 * that is not a 180-degree turn.
 */
module Keyboard {

  import opened Options
  import opened Snakes
  import opened Counters
  import opened Animation

  /** `mapping`: key codes 37 to 40 are left, top, right and down; every other code is unmapped. */
  function Mapping(keyCode: int): (d: Option<Direction>)
    ensures d.Some? <==> 37 <= keyCode <= 40
    ensures d.Some? ==> (d.value.Horizontal() <==> keyCode % 2 == 1)
  {
    if keyCode == 37 then Some(Left)
    else if keyCode == 38 then Some(Top)
    else if keyCode == 39 then Some(Right)
    else if keyCode == 40 then Some(Down)
    else None
  }

  class KeyboardManager {
    const animationManager: AnimationManager
    const timer: Timer
    var firstKeydown: bool
    var firstTimer: bool
    /** The last accepted key code; `None` is the script's empty string. */
    var lastKeyCode: Option<int>

    /**
     * The state the manager keeps together with the animation manager and the timer:
     * no key accepted means no closure and no frame; otherwise the bag holds the one
     * closure for the last accepted direction. At most one frame and one interval are
     * live, and no interval is live before the first arrow key.
     */
    ghost predicate Valid()
      reads this, animationManager, timer
    {
      && firstKeydown == lastKeyCode.None?
      && (lastKeyCode.Some? ==> Mapping(lastKeyCode.value).Some?)
      && (firstKeydown ==> animationManager.pending == {} && animationManager.bag == [])
      && (!firstKeydown ==> animationManager.bag == [Mapping(lastKeyCode.value).value])
      && animationManager.pending <= {animationManager.lastAnimationFrame}
      && (firstTimer ==> timer.live == {})
      && timer.live <= {timer.idSetInterval}
    }

    constructor (animationManager: AnimationManager, timer: Timer)
      ensures this.animationManager == animationManager && this.timer == timer
      ensures firstKeydown && firstTimer && lastKeyCode == None
    {
      this.animationManager := animationManager;
      this.timer := timer;
      firstKeydown := true;
      firstTimer := true;
      lastKeyCode := None;
    }

    /** `canChangeDirection(keyCode)`: false exactly for a 180-degree turn from the last accepted key. */
    function CanChangeDirection(keyCode: int): (r: bool)
      reads this
      ensures !r <==>
        && lastKeyCode.Some? && Mapping(lastKeyCode.value).Some? && Mapping(keyCode).Some?
        && Mapping(keyCode).value == Mapping(lastKeyCode.value).value.Opposite()
    {
      && !(lastKeyCode == Some(37) && keyCode == 39)
      && !(lastKeyCode == Some(39) && keyCode == 37)
      && !(lastKeyCode == Some(38) && keyCode == 40)
      && !(lastKeyCode == Some(40) && keyCode == 38)
    }

    /**
     * `setKeydown(keyCode)`. An unmapped key changes nothing. A mapped key starts the
     * timer if it has not been started since the last reload; unless it reverses the last
     * accepted direction, it replaces the bag by the single closure for its direction and
     * leaves exactly one frame requested.
     */
    method SetKeydown(keyCode: int)
      requires Valid()
      modifies this, animationManager`bag, animationManager`lastAnimationFrame
      modifies animationManager`pending, animationManager`nextFrame
      modifies timer`idSetInterval, timer`live, timer`nextHandle
      ensures Valid()
      ensures Mapping(keyCode).None? ==>
        && firstKeydown == old(firstKeydown) && firstTimer == old(firstTimer)
        && lastKeyCode == old(lastKeyCode)
        && unchanged(animationManager, timer)
      ensures Mapping(keyCode).Some? ==>
        && !firstKeydown && !firstTimer
        && if old(firstTimer)
           then timer.idSetInterval == old(timer.nextHandle) && timer.live == {timer.idSetInterval}
           else timer.idSetInterval == old(timer.idSetInterval) && timer.live == old(timer.live)
      ensures Mapping(keyCode).Some? && old(CanChangeDirection(keyCode)) ==>
        && lastKeyCode == Some(keyCode)
        && animationManager.bag == [Mapping(keyCode).value]
        && animationManager.pending == {animationManager.lastAnimationFrame}
      ensures Mapping(keyCode).Some? && !old(CanChangeDirection(keyCode)) ==>
        && lastKeyCode == old(lastKeyCode)
        && animationManager.bag == old(animationManager.bag)
        && animationManager.pending == old(animationManager.pending)
        && animationManager.lastAnimationFrame == old(animationManager.lastAnimationFrame)
    {
      var direction := Mapping(keyCode);
      if direction.Some? {
        if firstTimer {
          timer.Run();
          firstTimer := false;
        }
        if lastKeyCode.None? && firstKeydown {
          animationManager.Run(direction.value);
          lastKeyCode := Some(keyCode);
          firstKeydown := false;
        }
        if CanChangeDirection(keyCode) {
          animationManager.Stop();
          animationManager.Run(direction.value);
          lastKeyCode := Some(keyCode);
        }
      }
    }

    /** `reload()`: stops the animation and waits again for a first arrow key. */
    method Reload()
      modifies this, animationManager`bag, animationManager`pending
      ensures lastKeyCode == None && firstKeydown && firstTimer
      ensures animationManager.bag == []
      ensures animationManager.pending == old(animationManager.pending) - {animationManager.lastAnimationFrame}
    {
      animationManager.Stop();
      lastKeyCode := None;
      firstKeydown := true;
      firstTimer := true;
    }
  }
}
