# bench-utils timer, modelled in Dafny

`bench-utils` brackets nested operations with a start line and an end line. The end line also
shows the elapsed time. Each line is indented by twice the current nesting depth. The depth lives
in a process-wide counter, `NUM_INDENT`. `timer_start!` prints the start line and then increments
the counter. `timer_end!` decrements the counter, then prints the end line: the label and suffix,
dot-filled to a fixed column, followed by the formatted elapsed time. The `Drop` of the guard runs
the same end logic. Without the `timer` feature, the same macros compile to no-ops.

The model, one module per part:

- `Decimal`: the decimal text of a natural number, as `{}` writes an integer, and reading it back.
- `Duration`: the elapsed-time formatting of `timer_end!`. The time is a number of nanoseconds.
  `Read` makes the unit choice. `Show` renders the choice. `ParseReading` reads a rendering back.
- `Indent`: `compute_indent`. A loop method is proved against the function `IndentText`. The value
  of `CLICOLOR` is a parameter.
- `Lines`: the printed lines as records (`StartLine`, `EndLine`), right-padding, and the plain text
  of a line.
- `Instrumented`: the guard `TimerInfo` and the steps `StartStep`/`EndStep` of the two macros.
  `class Timer` holds the counter as `depth: nat` and has `Start`, `End` and `Drop` methods, each
  proved against those steps.
- `Nesting`: traces of starts and ends, replayed on the counter. A replayed trace keeps the open
  guards on a stack; each end ends the innermost one. Proved: balanced traces restore the counter,
  and a start and its matching end print the same indent.
- `Noop`: the build without the `timer` feature. It has a field-less guard and a stateless class,
  and it prints nothing.

Two points where the code's behaviour may be unexpected; the model follows the code:

- Disposal is not idempotent. `timer_end!(t)` does not consume `t`, and `TimerInfo` has no
  disposed flag. So a guard ended explicitly is ended again by its `Drop` while the counter is
  still at least 1 after the explicit end: a second end line, a second decrement
  (`Instrumented.EndThenDropEndsTwice`). At the top level the explicit end leaves the counter at
  0, and the `Drop` then has no defined outcome: `fetch_sub` wraps the counter below zero and
  `2 * NUM_INDENT` overflows, a panic in a debug build and a huge indent otherwise. The model
  stops there, since `CanEnd(0)` is false (`Instrumented.EndThenDropAtTopLevel`).
  The nesting results are stated for traces in which each guard is ended once. In the source
  these are the programs that end every guard by its `Drop` alone, so every `Close` of such a
  trace has the empty suffix.
- No clamping of the pad width. `75 - indent_amount` is unsigned, so the model requires
  `2 * depth <= 75` after the decrement (`Instrumented.CanEnd`).

## Model

| member | source | states |
|---|---|---|
| `Decimal.NatToString` | bench-utils/src/lib.rs:55 | the decimal text of an integer is nonempty, all digits, without a leading zero, and one digit long exactly below 10 |
| `Decimal.DigitsValueOfNatToString` | bench-utils/src/lib.rs:55 | reading the decimal text back gives the number |
| `Decimal.NatToStringInjective` | bench-utils/src/lib.rs:55 | two numbers have the same decimal text exactly when they are equal |
| `Duration.ReadShape` | bench-utils/src/lib.rs:49-62 | the unit choice gives a fraction exactly when the unit is not nanoseconds, and that fraction is below 1000; the whole number never exceeds the elapsed time |
| `Duration.UnitByMagnitude` | bench-utils/src/lib.rs:49-62 | exactly one of the four forms applies: seconds iff at least 1s, milliseconds iff in [1ms, 1s), microseconds iff in [1µs, 1ms), nanoseconds iff below 1µs |
| `Duration.ReadTruncates` | bench-utils/src/lib.rs:50-62 | the shown numbers truncate the elapsed time: whole seconds and leftover milliseconds, or whole milliseconds and leftover microseconds (at most one such unit cut off), or microseconds and nanoseconds exactly, or the nanoseconds themselves; the fraction is below 1000 |
| `Duration.ShowEndsWithUnit` | bench-utils/src/lib.rs:54-62 | the rendering of a reading ends with the suffix of its unit: "s", "ms", "µs" or "ns" |
| `Duration.ParseFormat` | bench-utils/src/lib.rs:54-62 | the rendering reads back as exactly the unit, whole number and fraction chosen; the unpadded fraction loses nothing that is shown |
| `Duration.FormatDistinguishesReadings` | bench-utils/src/lib.rs:54-62 | two elapsed times render alike iff they have the same unit, whole number and fraction |
| `Duration.FormatZero` | bench-utils/src/lib.rs:60-61 | 0ns renders as "0ns" |
| `Duration.FormatJustUnderMicro` | bench-utils/src/lib.rs:60-61 | 999ns renders as "999ns" |
| `Duration.FormatMicros` | bench-utils/src/lib.rs:58-59 | 1500ns renders as "1.500µs" |
| `Duration.FormatMillis` | bench-utils/src/lib.rs:56-57 | 2500000ns renders as "2.500ms" |
| `Duration.FormatSeconds` | bench-utils/src/lib.rs:54-55 | 1.2s renders as "1.200s" |
| `Duration.FormatUnpaddedFraction` | bench-utils/src/lib.rs:54-55 | the millisecond fraction is not zero-padded: 1.005s renders as "1.5s" and 1.05s as "1.50s" |
| `Indent.PadUnit` | bench-utils/src/lib.rs:97-106 | the pad unit is a space exactly when `CLICOLOR` is "0", and the middle dot otherwise, also when it is unset |
| `Indent.IndentText` | bench-utils/src/lib.rs:107-110 | the indent has exactly the requested number of characters, each the pad unit |
| `Indent.ComputeIndent` | bench-utils/src/lib.rs:94-111 | the loop that appends one pad unit per step yields `IndentText` |
| `Lines.PadRight` | bench-utils/src/lib.rs:74-81 | `{:.<pad$}`: the text kept whole at the left, filled to the width and never truncated |
| `Lines.Render` | bench-utils/src/lib.rs:74-81 | a printed line is its indent, then the tag ("Start:" at line 32, "End:" here) padded to 8 columns, one space, then the content: the label for a start, the message and the duration for an end |
| `Instrumented.EndMessage` | bench-utils/src/lib.rs:66-80 | the end message is the label, one space (also for an empty suffix) and the suffix, dot-filled to `75 - indent_amount` columns, never truncated |
| `Instrumented.StartStepShape` | bench-utils/src/lib.rs:27-34 | a start prints a start line with the label, indented by twice the counter it finds; the counter then grows by one; the guard holds the label |
| `Instrumented.CanEndRange` | bench-utils/src/lib.rs:68-80 | the end logic is defined (no wrap of `fetch_sub`, no underflow of `75 - indent_amount`) exactly for counter values 1 to 38 |
| `Instrumented.EndStepShape` | bench-utils/src/lib.rs:43-81 | an end drops the counter by one first; its line is indented by twice the new value; its message begins with the label, a space and the suffix and fills at least 75 columns together with the indent; the duration is the formatted elapsed time |
| `Instrumented.StartThenEnd` | bench-utils/src/lib.rs:27-70 | a start directly followed by the end of its guard prints both lines with the same indent, `2 * depth`, and leaves the counter where it was |
| `Instrumented.EndLineAligned` | bench-utils/src/lib.rs:74-81 | when label and suffix fit their field, the duration starts at the same column (84) at every depth |
| `Instrumented.EndThenDropEndsTwice` | bench-utils/src/lib.rs:87-91 | an explicit end followed by the guard's drop prints two end lines and leaves the counter one below where the start found it |
| `Instrumented.EndThenDropAtTopLevel` | bench-utils/src/lib.rs:68-69 | after a top-level start and its explicit end, the counter is back at 0, where the guard's drop cannot run the end logic without wrapping |
| `Instrumented.Timer.constructor` | bench-utils/src/lib.rs:12 | the counter starts at 0 |
| `Instrumented.Timer.Start` | bench-utils/src/lib.rs:27-34 | the start line is indented by twice the counter before the increment; the counter then grows by exactly 1; the guard holds the label |
| `Instrumented.Timer.End` | bench-utils/src/lib.rs:43-81 | the counter drops by exactly 1 first; the end line is indented by twice the new value and carries the padded message and the formatted duration |
| `Instrumented.Timer.Drop` | bench-utils/src/lib.rs:87-91 | dropping a guard is an end with the empty suffix |
| `Instrumented.TimeNothing` | bench-utils/src/lib.rs:22-91 | timing a label around nothing, under 1ms: two unindented lines naming the label, the duration ending in "ns" or "µs" |
| `Nesting.Replay` | bench-utils/src/lib.rs:27-70 | replaying a trace prints one line per event and moves the counter by the number of starts minus the number of ends |
| `Nesting.BalancedRestores` | bench-utils/src/lib.rs:29-70 | a trace that ends exactly the guards it opens leaves the counter, and the caller's open guards, as it found them |
| `Nesting.MatchedLinesAlign` | bench-utils/src/lib.rs:27-81 | a start and its matching end (everything between balanced) print the same indent, twice the counter before the start; the end line's message begins with that start's label |
| `Noop.Timer.Start` | bench-utils/src/lib.rs:122-127 | without the feature, starting hands back the field-less guard and prints nothing |
| `Noop.Timer.End` | bench-utils/src/lib.rs:129-138 | without the feature, ending prints nothing and changes no state |
| `Noop.Timer.Drop` | bench-utils/src/lib.rs:117-120 | without the feature, dropping the guard prints nothing and changes no state |

## Left out

- Colour styling from the `colored` crate (`yellow`, `bold`, `green`, `white`): treated as the identity. The `{:8}` field of the tags is modelled on their plain text.
- `println!`: the methods return the line records instead, and `Lines.Render` gives their plain text.
- `Instant::now` and `elapsed`: the elapsed time is an input number of nanoseconds, and the guard does not hold its start instant.
- `std::env::var("CLICOLOR")`: the value is a parameter, `None` when the variable is unset or not valid Unicode.
- Atomics, `Ordering::Relaxed` and concurrent use from several threads: the counter is modelled for one thread.
- `cfg(feature = "timer")` and macro hygiene: the two builds are the modules `Instrumented` and `Noop`.
- The label and suffix closures: they are passed as evaluated text. So the model does not show that the instrumented start evaluates the label before it touches the counter, nor that the no-op macros never call them.
- Integer widths: the `u64` seconds and `u32` sub-second fields of `Duration` are unbounded here, and so is the `usize` product `2 * depth` in `timer_start!`, which would overflow only beyond 2^63 open guards.
- Instrumented.Timer.End: requires `CanEnd(depth)`. It does not model the wrap-around of `fetch_sub` at 0, nor the unsigned underflow of `75 - indent_amount` beyond depth 37.
- Instrumented.Timer.Drop: requires `CanEnd(depth)`, for the same reasons as `End`.
- Nesting.Replay: one `CLICOLOR` value for the whole trace. The source reads it afresh on every line, so a change mid-trace changes the pad character but not the indent length.
- Idempotent disposal is not modelled, because the source has no disposed flag (see above).
