/**
 * The build without the `timer` feature: the same three entry points, with a
 * field-less guard, no counter, and nothing printed.
 */
module Noop {
  import opened Lines

  /** The field-less guard. */
  datatype TimerInfo = TimerInfo

  /** No state: the methods have nothing they may modify. */
  class Timer {
    constructor ()
    {
    }

    /** `timer_start!`: hands back the guard and prints nothing. */
    method Start(msg: string) returns (guard: TimerInfo, printed: seq<Line>)
      ensures printed == []
    {
      guard := TimerInfo;
      printed := [];
    }

    /** `timer_end!(guard, suffix)`: prints nothing. */
    method End(guard: TimerInfo, suffix: string) returns (printed: seq<Line>)
      ensures printed == []
    {
      printed := [];
    }

    /** `Drop` of the guard, and `timer_end!(guard)`: prints nothing. */
    method Drop(guard: TimerInfo) returns (printed: seq<Line>)
      ensures printed == []
    {
      printed := [];
    }
  }
}
