/**
 * The `timer` build: `timer_start!`, `timer_end!`, the `Drop` of `TimerInfo`
 * and the process-wide depth counter `NUM_INDENT`, used from one thread.
 */
module Instrumented {
  import opened Wrappers
  import opened Lines
  import opened Indent
  import Duration

  /** The end message is dot-filled to this many columns less the indent. */
  const MessageWidth: nat := 75

  /** Column at which the duration starts when the message fits its field. */
  const DurationColumn: nat := TagWidth + 1 + MessageWidth

  /** The guard `timer_start!` hands back; its start instant is not modelled. */
  datatype TimerInfo = TimerInfo(msg: string)

  /** The label, one space and the suffix, dot-filled to `MessageWidth - indentAmount` columns. */
  function EndMessage(msg: string, suffix: string, indentAmount: nat): (m: string)
    requires indentAmount <= MessageWidth
    ensures |m| == Max(|msg| + 1 + |suffix|, MessageWidth - indentAmount)
    ensures m[..|msg| + 1 + |suffix|] == msg + " " + suffix
    ensures forall i :: |msg| + 1 + |suffix| <= i < |m| ==> m[i] == '.'
  {
    PadRight(msg + " " + suffix, '.', MessageWidth - indentAmount)
  }

  /* One step of each macro, on the counter value it finds. */

  datatype Started = Started(depth: nat, guard: TimerInfo, line: Line)
  datatype Ended = Ended(depth: nat, line: Line)

  /**
   * The start line shows the label, indented by twice the depth read before
   * the increment; the counter then grows by one, and the guard holds the label.
   */
  function StartStep(depth: nat, msg: string, clicolor: Option<string>): Started
  {
    Started(depth + 1, TimerInfo(msg), StartLine(IndentText(2 * depth, clicolor), msg))
  }

  lemma StartStepShape(depth: nat, msg: string, clicolor: Option<string>)
    ensures var s := StartStep(depth, msg, clicolor);
      s.depth == depth + 1 && s.guard == TimerInfo(msg) &&
      s.line.StartLine? && s.line.msg == msg && |s.line.indent| == 2 * depth
  {
  }

  /**
   * An end is possible without the counter wrapping below zero and without
   * `75 - indent_amount` wrapping below zero.
   */
  predicate CanEnd(depth: nat)
  {
    0 < depth && 2 * (depth - 1) <= MessageWidth
  }

  /** Ends are possible from depth 1 up to depth 38. */
  lemma CanEndRange(depth: nat)
    ensures CanEnd(depth) <==> 1 <= depth <= 38
  {
  }

  /**
   * The counter drops by one first; the end line is indented by twice the new
   * value, and carries the label, a space and the suffix, dot-filled so that
   * indent and message together span at least `MessageWidth` columns, then the
   * formatted elapsed time.
   */
  function EndStep(depth: nat, guard: TimerInfo, suffix: string, elapsed: nat, clicolor: Option<string>): Ended
    requires CanEnd(depth)
  {
    var after := depth - 1;
    Ended(after, EndLine(IndentText(2 * after, clicolor), EndMessage(guard.msg, suffix, 2 * after), Duration.Format(elapsed)))
  }

  lemma EndStepShape(depth: nat, guard: TimerInfo, suffix: string, elapsed: nat, clicolor: Option<string>)
    requires CanEnd(depth)
    ensures var e := EndStep(depth, guard, suffix, elapsed, clicolor);
      e.depth == depth - 1 &&
      e.line.EndLine? && |e.line.indent| == 2 * e.depth &&
      |e.line.indent| + |e.line.message| >= MessageWidth &&
      |e.line.message| > |guard.msg| + |suffix| &&
      e.line.message[..|guard.msg| + 1 + |suffix|] == guard.msg + " " + suffix &&
      e.line.duration == Duration.Format(elapsed)
  {
  }

  /** A start directly followed by the end of its guard: same indent, counter back where it was. */
  lemma StartThenEnd(depth: nat, msg: string, suffix: string, elapsed: nat, clicolor: Option<string>)
    requires CanEnd(depth + 1)
    ensures var s := StartStep(depth, msg, clicolor);
      var e := EndStep(s.depth, s.guard, suffix, elapsed, clicolor);
      e.depth == depth && e.line.indent == s.line.indent && |s.line.indent| == 2 * depth
  {
  }

  /**
   * When the label and suffix fit their field, the duration starts at the same
   * column at every depth, and the line ends with it.
   */
  lemma EndLineAligned(depth: nat, guard: TimerInfo, suffix: string, elapsed: nat, clicolor: Option<string>)
    requires CanEnd(depth)
    requires |guard.msg| + 1 + |suffix| + 2 * (depth - 1) <= MessageWidth
    ensures var text := Render(EndStep(depth, guard, suffix, elapsed, clicolor).line);
      |text| == DurationColumn + |Duration.Format(elapsed)| &&
      text[DurationColumn..] == Duration.Format(elapsed)
  {
  }

  /**
   * An end that is followed by the guard's `Drop` (the guard is not consumed
   * by `timer_end!`): two end lines, and the counter ends one below where the
   * start found it.
   */
  lemma EndThenDropEndsTwice(depth: nat, msg: string, suffix: string, e1: nat, e2: nat, clicolor: Option<string>)
    requires CanEnd(depth + 1) && CanEnd(depth)
    ensures var s := StartStep(depth, msg, clicolor);
      var first := EndStep(s.depth, s.guard, suffix, e1, clicolor);
      var second := EndStep(first.depth, s.guard, "", e2, clicolor);
      second.depth == depth - 1 && second.line.EndLine? &&
      |second.line.message| > |msg| && second.line.message[..|msg| + 1] == msg + " "
  {
  }

  /**
   * At the top level the explicit end brings the counter back to zero, so the
   * guard's `Drop` cannot end it again: there `fetch_sub` would wrap below
   * zero and `2 * NUM_INDENT` would overflow.
   */
  lemma EndThenDropAtTopLevel(msg: string, suffix: string, elapsed: nat, clicolor: Option<string>)
    ensures var s := StartStep(0, msg, clicolor);
      CanEnd(s.depth) &&
      var first := EndStep(s.depth, s.guard, suffix, elapsed, clicolor);
      first.depth == 0 && !CanEnd(first.depth)
  {
  }

  /** The counter `NUM_INDENT` and the two macros that move it, plus `Drop`. */
  class Timer {
    var depth: nat

    constructor ()
      ensures depth == 0
    {
      depth := 0;
    }

    /** `timer_start!`: the label is already evaluated when the counter is read. */
    method Start(msg: string, clicolor: Option<string>) returns (guard: TimerInfo, line: Line)
      modifies this
      ensures depth == old(depth) + 1
      ensures Started(depth, guard, line) == StartStep(old(depth), msg, clicolor)
    {
      var indentAmount := 2 * depth;
      var indent := ComputeIndent(indentAmount, clicolor);
      line := StartLine(indent, msg);
      depth := depth + 1;
      guard := TimerInfo(msg);
    }

    /** `timer_end!(guard, suffix)`: decrement first, then read the depth for the indent. */
    method End(guard: TimerInfo, suffix: string, elapsed: nat, clicolor: Option<string>) returns (line: Line)
      requires CanEnd(depth)
      modifies this
      ensures depth == old(depth) - 1
      ensures Ended(depth, line) == EndStep(old(depth), guard, suffix, elapsed, clicolor)
    {
      var duration := Duration.Format(elapsed);
      var message := guard.msg + " " + suffix;
      depth := depth - 1;
      var indentAmount := 2 * depth;
      var indent := ComputeIndent(indentAmount, clicolor);
      line := EndLine(indent, PadRight(message, '.', MessageWidth - indentAmount), duration);
    }

    /** `Drop` of a guard, and `timer_end!(guard)`: an end with the empty suffix. */
    method Drop(guard: TimerInfo, elapsed: nat, clicolor: Option<string>) returns (line: Line)
      requires CanEnd(depth)
      modifies this
      ensures depth == old(depth) - 1
      ensures Ended(depth, line) == EndStep(old(depth), guard, "", elapsed, clicolor)
    {
      line := End(guard, "", elapsed, clicolor);
    }
  }

  /**
   * A label timed around nothing, from a fresh counter: both lines unindented,
   * both naming the label, the duration in nanoseconds or microseconds.
   */
  method TimeNothing(msg: string, elapsed: nat, clicolor: Option<string>) returns (lines: seq<Line>)
    requires elapsed < Duration.NanosPerMilli
    ensures |lines| == 2
    ensures lines[0] == StartLine("", msg)
    ensures lines[1].EndLine? && lines[1].indent == ""
    ensures |lines[1].message| > |msg| && lines[1].message[..|msg| + 1] == msg + " "
    ensures lines[1].duration == Duration.Format(elapsed)
    ensures Duration.HasSuffix(lines[1].duration, "ns") || Duration.HasSuffix(lines[1].duration, "\U{00B5}s")
  {
    var timer := new Timer();
    var guard, start := timer.Start(msg, clicolor);
    var end := timer.Drop(guard, elapsed, clicolor);
    lines := [start, end];
    Duration.UnitByMagnitude(elapsed);
    Duration.ShowEndsWithUnit(Duration.Read(elapsed));
  }
}
