/** The score (`getScore`) and the round timer (`getTimer`), each with a play flag. */
module Counters {

  class Score {
    const step: int
    var score: int
    var isPlaying: bool

    constructor ()
      ensures step == 1 && score == 0 && isPlaying
    {
      step := 1;
      score := 0;
      isPlaying := true;
    }

    /** `addScore()`: adds `step` while playing and does nothing otherwise. */
    method AddScore()
      modifies this`score
      ensures score == if isPlaying then old(score) + step else old(score)
    {
      if isPlaying {
        score := score + step;
      }
    }

    /** `reload()`. */
    method Reload()
      modifies this`score, this`isPlaying
      ensures score == 0 && isPlaying
    {
      score := 0;
      isPlaying := true;
    }
  }

  /**
   * The countdown. The one-second interval is an abstract handle: `live` holds the handles
   * of the intervals still scheduled and `nextHandle` is the one `setInterval` returns next.
   */
  class Timer {
    /** `params.defaultSecond`. */
    const defaultSecond: int
    var second: int
    var isPlaying: bool
    var idSetInterval: nat
    var live: set<nat>
    var nextHandle: nat

    constructor ()
      ensures defaultSecond == 60 && second == 60 && isPlaying
      ensures idSetInterval == 0 && live == {}
    {
      defaultSecond := 60;
      second := 60;
      isPlaying := true;
      idSetInterval := 0;
      live := {};
      nextHandle := 1;
    }

    /** `run()`: schedules a new interval and remembers its handle. */
    method Run()
      modifies this`idSetInterval, this`live, this`nextHandle
      ensures idSetInterval == old(nextHandle) && nextHandle == old(nextHandle) + 1
      ensures live == old(live) + {idSetInterval}
    {
      idSetInterval := nextHandle;
      live := live + {nextHandle};
      nextHandle := nextHandle + 1;
    }

    /** `stop()`: cancels the last scheduled interval; a cancelled handle is ignored. */
    method Stop()
      modifies this`live
      ensures live == old(live) - {idSetInterval}
    {
      live := live - {idSetInterval};
    }

    /**
     * The interval callback: one second less, and once fewer than one remains the interval
     * is cancelled and play ends.
     */
    method Tick()
      modifies this`second, this`isPlaying, this`live
      ensures second == old(second) - 1
      ensures isPlaying == (old(isPlaying) && second >= 1)
      ensures live == if second >= 1 then old(live) else old(live) - {idSetInterval}
    {
      second := second - 1;
      if second < 1 {
        Stop();
        isPlaying := false;
      }
    }

    /** `reload()`: cancels the interval and restores the full countdown. */
    method Reload()
      modifies this`live, this`isPlaying, this`second
      ensures live == old(live) - {idSetInterval}
      ensures isPlaying && second == defaultSecond
    {
      Stop();
      isPlaying := true;
      second := defaultSecond;
    }
  }
}
