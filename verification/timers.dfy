/**
  The two timers the practice page holds: a count-up exercise timer and a count-down
  session timer with a time-up event. Only the operations the page calls are modelled
  (`reset`, `start`, `pause`, reading `time` and `isRunning`), plus one tick of the
  interval that drives a running timer.
*/
module Timers {

  datatype Direction = CountUp | CountDown

  /** The observable value of a timer. */
  datatype TimerState = TimerState(time: nat, isRunning: bool)

  /**
    One interval of a timer: a stopped timer does not move; a running count-up timer gains
    a second; a running count-down timer loses one, never going below 0, and on reaching 0
    stops and reports time-up.
  */
  function TickState(t: TimerState, direction: Direction): (r: (TimerState, bool))
    ensures !t.isRunning ==> r == (t, false)
    ensures t.isRunning && direction == CountUp ==> r.0.time == t.time + 1 && r.0.isRunning && !r.1
    ensures t.isRunning && direction == CountDown ==>
      && r.0.time <= t.time
      && (r.1 <==> r.0.time == 0)
      && r.0.isRunning == !r.1
  {
    if !t.isRunning then (t, false)
    else match direction
      case CountUp => (TimerState(t.time + 1, true), false)
      case CountDown =>
        var next := if t.time > 0 then t.time - 1 else 0;
        (TimerState(next, next != 0), next == 0)
  }

  /** `n` intervals in a row: the final value and how many times time-up was reported. */
  function TickMany(t: TimerState, direction: Direction, n: nat): (TimerState, nat)
    decreases n
  {
    if n == 0 then (t, 0)
    else
      var (t1, up) := TickState(t, direction);
      var (tn, ups) := TickMany(t1, direction, n - 1);
      (tn, ups + if up then 1 else 0)
  }

  /** A stopped timer stays where it is, however many intervals pass. */
  lemma {:induction false} PausedTimerHolds(t: TimerState, direction: Direction, n: nat)
    requires !t.isRunning
    ensures TickMany(t, direction, n) == (t, 0)
    decreases n
  {
    if n > 0 {
      PausedTimerHolds(t, direction, n - 1);
    }
  }

  /**
    A count-down started at `d > 0` has not expired after fewer than `d` intervals, and
    reaches 0 and reports time-up exactly once after `d` intervals, stopped.
  */
  lemma {:induction false} CountDownExpiresOnce(d: nat, n: nat)
    requires 0 < d && n <= d
    ensures n < d ==> TickMany(TimerState(d, true), CountDown, n) == (TimerState(d - n, true), 0)
    ensures n == d ==> TickMany(TimerState(d, true), CountDown, n) == (TimerState(0, false), 1)
    decreases n
  {
    if n > 0 {
      if d == 1 {
        assert TickState(TimerState(1, true), CountDown) == (TimerState(0, false), true);
        PausedTimerHolds(TimerState(0, false), CountDown, n - 1);
      } else {
        CountDownExpiresOnce(d - 1, n - 1);
      }
    }
  }

  /** A timer object: `time`, `isRunning`, and the page's calls on it. */
  class Timer {
    const direction: Direction
    var time: nat
    var isRunning: bool

    function Value(): TimerState
      reads this
    {
      TimerState(time, isRunning)
    }

    constructor (initialTime: nat, direction: Direction)
      ensures this.direction == direction
      ensures Value() == TimerState(initialTime, false)
    {
      this.direction := direction;
      time := initialTime;
      isRunning := false;
    }

    /** `reset(n)`: the time becomes `n`; running or not is left as it was. */
    method Reset(n: nat)
      modifies this
      ensures Value() == TimerState(n, old(isRunning))
    {
      time := n;
    }

    /** `start()`. */
    method Start()
      modifies this
      ensures Value() == TimerState(old(time), true)
    {
      isRunning := true;
    }

    /** `pause()`. */
    method Pause()
      modifies this
      ensures Value() == TimerState(old(time), false)
    {
      isRunning := false;
    }

    /** One interval; `timeUp` is the time-up event. */
    method Tick() returns (timeUp: bool)
      modifies this
      ensures (Value(), timeUp) == TickState(old(Value()), direction)
    {
      timeUp := false;
      if isRunning {
        if direction == CountUp {
          time := time + 1;
        } else {
          if time > 0 {
            time := time - 1;
          }
          if time == 0 {
            isRunning := false;
            timeUp := true;
          }
        }
      }
    }
  }
}
