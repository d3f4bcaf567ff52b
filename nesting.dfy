/**
 * Nested use of the instrumented timer from one thread: a trace of starts and
 * ends replayed on the counter, where each end ends the innermost guard still
 * open and every guard is ended once.
 */
module Nesting {
  import opened Wrappers
  import opened Lines
  import opened Indent
  import opened Instrumented

  /**
   * A trace event. `Close` is one run of the end logic for the innermost open
   * guard. A guard is ended exactly once only when its `Drop` alone ends it,
   * with the empty suffix: an explicit `timer_end!(guard, || suffix)` leaves
   * the guard alive, and its `Drop` ends it a second time.
   */
  datatype Event =
    | Open(msg: string)                    // `timer_start!(|| msg)`
    | Close(suffix: string, elapsed: nat)  // the end logic, run on the innermost open guard

  /** Starts minus ends. */
  function Net(evs: seq<Event>): int
  {
    if evs == [] then 0 else (if evs[0].Open? then 1 else -1) + Net(evs[1..])
  }

  /** Every end has a guard to end: one of the `open` guards given, or one opened earlier in the trace. */
  predicate Nested(open: nat, evs: seq<Event>)
    decreases |evs|
  {
    evs == [] ||
    if evs[0].Open? then Nested(open + 1, evs[1..])
    else open > 0 && Nested(open - 1, evs[1..])
  }

  /** Every end finds the counter in the range `CanEnd` allows. */
  predicate Fits(depth: nat, evs: seq<Event>)
    decreases |evs|
  {
    evs == [] ||
    if evs[0].Open? then Fits(depth + 1, evs[1..])
    else CanEnd(depth) && Fits(depth - 1, evs[1..])
  }

  /** A trace that ends exactly the guards it opens, each after it is opened. */
  predicate Balanced(evs: seq<Event>)
  {
    Nested(0, evs) && Net(evs) == 0
  }

  /** The counter, the caller's open guards (innermost last) and the lines printed. */
  datatype Run = Run(depth: nat, open: seq<TimerInfo>, lines: seq<Line>)

  /** One line per event; the counter and the number of open guards both move by `Net`. */
  function Replay(depth: nat, open: seq<TimerInfo>, evs: seq<Event>, clicolor: Option<string>): (r: Run)
    requires Nested(|open|, evs) && Fits(depth, evs)
    ensures |r.lines| == |evs|
    ensures r.depth == depth + Net(evs) && |r.open| == |open| + Net(evs)
    decreases |evs|
  {
    if evs == [] then Run(depth, open, [])
    else match evs[0]
      case Open(msg) =>
        var s := StartStep(depth, msg, clicolor);
        var rest := Replay(s.depth, open + [s.guard], evs[1..], clicolor);
        Run(rest.depth, rest.open, [s.line] + rest.lines)
      case Close(suffix, elapsed) =>
        var e := EndStep(depth, open[|open| - 1], suffix, elapsed, clicolor);
        var rest := Replay(e.depth, open[..|open| - 1], evs[1..], clicolor);
        Run(rest.depth, rest.open, [e.line] + rest.lines)
  }

  lemma {:induction false} NestedWeaken(n: nat, m: nat, evs: seq<Event>)
    requires n <= m && Nested(n, evs)
    ensures Nested(m, evs)
    decreases |evs|
  {
    if evs != [] {
      if evs[0].Open? {
        NestedWeaken(n + 1, m + 1, evs[1..]);
      } else {
        NestedWeaken(n - 1, m - 1, evs[1..]);
      }
    }
  }

  /**
   * A trace that ends at most `n` of the guards open before it leaves the
   * others untouched, in order.
   */
  lemma {:induction false} ReplayKeepsOuter(depth: nat, open: seq<TimerInfo>, evs: seq<Event>, n: nat, clicolor: Option<string>)
    requires n <= |open| && Nested(n, evs) && Nested(|open|, evs) && Fits(depth, evs)
    ensures var r := Replay(depth, open, evs, clicolor);
      |open| - n <= |r.open| && r.open[..|open| - n] == open[..|open| - n]
    decreases |evs|
  {
    if evs != [] {
      var depth', open' := AfterFirst(depth, open, evs, clicolor);
      var n' := if evs[0].Open? then n + 1 else n - 1;
      ReplayKeepsOuter(depth', open', evs[1..], n', clicolor);
      var k := |open| - n;
      assert |open'| - n' == k;
      if evs[0].Open? {
        TakeAppend(open, [TimerInfo(evs[0].msg)], k);
      } else {
        TakeTake(open, |open| - 1, k);
      }
    }
  }

  lemma TakeAppend<T>(x: seq<T>, y: seq<T>, k: nat)
    requires k <= |x|
    ensures (x + y)[..k] == x[..k]
  {
  }

  lemma TakeTake<T>(x: seq<T>, m: nat, k: nat)
    requires k <= m <= |x|
    ensures x[..m][..k] == x[..k]
  {
  }

  /**
   * The counter and open guards after the first event: a start pushes its
   * guard, an end pops the innermost one; the rest is replayed from there.
   */
  lemma AfterFirst(depth: nat, open: seq<TimerInfo>, evs: seq<Event>, clicolor: Option<string>)
      returns (depth': nat, open': seq<TimerInfo>)
    requires evs != [] && Nested(|open|, evs) && Fits(depth, evs)
    ensures evs[0].Open? ==> open' == open + [TimerInfo(evs[0].msg)]
    ensures evs[0].Close? ==> |open| > 0 && open' == open[..|open| - 1]
    ensures Nested(|open'|, evs[1..]) && Fits(depth', evs[1..])
    ensures Replay(depth, open, evs, clicolor).open == Replay(depth', open', evs[1..], clicolor).open
  {
    if evs[0].Open? {
      depth', open' := depth + 1, open + [TimerInfo(evs[0].msg)];
    } else {
      depth', open' := depth - 1, open[..|open| - 1];
    }
  }

  /** A balanced trace leaves the counter and the caller's open guards as it found them. */
  lemma BalancedRestores(depth: nat, open: seq<TimerInfo>, evs: seq<Event>, clicolor: Option<string>)
    requires Balanced(evs) && Fits(depth, evs)
    ensures Nested(|open|, evs)
    ensures Replay(depth, open, evs, clicolor).depth == depth
    ensures Replay(depth, open, evs, clicolor).open == open
  {
    NestedWeaken(0, |open|, evs);
    ReplayKeepsOuter(depth, open, evs, 0, clicolor);
  }

  lemma {:induction false} NestedAppend(n: nat, a: seq<Event>, b: seq<Event>)
    requires Nested(n, a + b)
    ensures Nested(n, a) && n + Net(a) >= 0 && Nested(n + Net(a), b)
    decreases |a|
  {
    if a == [] {
      assert a + b == b;
    } else {
      assert (a + b)[0] == a[0] && (a + b)[1..] == a[1..] + b;
      if a[0].Open? {
        NestedAppend(n + 1, a[1..], b);
      } else {
        NestedAppend(n - 1, a[1..], b);
      }
    }
  }

  lemma {:induction false} FitsAppend(depth: nat, a: seq<Event>, b: seq<Event>)
    requires Fits(depth, a + b)
    ensures Fits(depth, a) && depth + Net(a) >= 0 && Fits(depth + Net(a), b)
    decreases |a|
  {
    if a == [] {
      assert a + b == b;
    } else {
      assert (a + b)[0] == a[0] && (a + b)[1..] == a[1..] + b;
      if a[0].Open? {
        FitsAppend(depth + 1, a[1..], b);
      } else {
        FitsAppend(depth - 1, a[1..], b);
      }
    }
  }

  /** Replaying `a + b` is replaying `a`, then `b` from where `a` left off. */
  lemma {:induction false} ReplayAppend(depth: nat, open: seq<TimerInfo>, a: seq<Event>, b: seq<Event>, clicolor: Option<string>)
    requires Nested(|open|, a + b) && Fits(depth, a + b)
    ensures Nested(|open|, a) && Fits(depth, a)
    ensures var ra := Replay(depth, open, a, clicolor);
      Nested(|ra.open|, b) && Fits(ra.depth, b) &&
      var rb := Replay(ra.depth, ra.open, b, clicolor);
      Replay(depth, open, a + b, clicolor) == Run(rb.depth, rb.open, ra.lines + rb.lines)
    decreases |a|, 1
  {
    NestedAppend(|open|, a, b);
    FitsAppend(depth, a, b);
    if a == [] {
      assert a + b == b;
    } else {
      ReplayAppendStep(depth, open, a, b, clicolor);
    }
  }

  /**
   * `ReplayAppend` for a nonempty `a` whose first event leaves the counter at
   * `depth'`, the open guards at `open'` and prints `line`.
   */
  lemma {:induction false} ReplayAppendStep(depth: nat, open: seq<TimerInfo>, a: seq<Event>, b: seq<Event>, clicolor: Option<string>)
    requires a != []
    requires Nested(|open|, a + b) && Fits(depth, a + b)
    requires Nested(|open|, a) && Fits(depth, a)
    ensures var ra := Replay(depth, open, a, clicolor);
      Nested(|ra.open|, b) && Fits(ra.depth, b) &&
      var rb := Replay(ra.depth, ra.open, b, clicolor);
      Replay(depth, open, a + b, clicolor) == Run(rb.depth, rb.open, ra.lines + rb.lines)
    decreases |a|, 0
  {
    assert (a + b)[..1] == a[..1] && (a + b)[1..] == a[1..] + b;
    var first := Replay(depth, open, a[..1], clicolor);
    assert Nested(|first.open|, a[1..] + b) && Fits(first.depth, a[1..] + b);
    ReplayAppend(first.depth, first.open, a[1..], b, clicolor);
    ReplayFirst(depth, open, a, clicolor);
    ReplayFirst(depth, open, a + b, clicolor);
    var ra' := Replay(first.depth, first.open, a[1..], clicolor);
    var rb := Replay(ra'.depth, ra'.open, b, clicolor);
    AppendAssociates(first.lines, ra'.lines, rb.lines);
    var ra := Replay(depth, open, a, clicolor);
    assert ra == Run(ra'.depth, ra'.open, first.lines + ra'.lines);
    assert Nested(|ra.open|, b) && Fits(ra.depth, b);
    assert Replay(depth, open, a + b, clicolor) == Run(rb.depth, rb.open, ra.lines + rb.lines);
  }

  lemma AppendAssociates<T>(x: seq<T>, y: seq<T>, z: seq<T>)
    ensures x + (y + z) == (x + y) + z
  {
  }

  /** A replay is the replay of its first event, then of the rest. */
  lemma ReplayFirst(depth: nat, open: seq<TimerInfo>, evs: seq<Event>, clicolor: Option<string>)
    requires evs != [] && Nested(|open|, evs) && Fits(depth, evs)
    ensures Nested(|open|, evs[..1]) && Fits(depth, evs[..1])
    ensures var first := Replay(depth, open, evs[..1], clicolor);
      Nested(|first.open|, evs[1..]) && Fits(first.depth, evs[1..]) &&
      var rest := Replay(first.depth, first.open, evs[1..], clicolor);
      Replay(depth, open, evs, clicolor) == Run(rest.depth, rest.open, first.lines + rest.lines)
  {
    var one := evs[..1];
    assert one[0] == evs[0] && one[1..] == [];
    match evs[0] {
      case Open(msg) =>
        var s := StartStep(depth, msg, clicolor);
        assert Replay(depth, open, one, clicolor) == Run(s.depth, open + [s.guard], [s.line]);
      case Close(suffix, elapsed) =>
        var e := EndStep(depth, open[|open| - 1], suffix, elapsed, clicolor);
        assert Replay(depth, open, one, clicolor) == Run(e.depth, open[..|open| - 1], [e.line]);
    }
  }

  /** The first line of a replay is the line of its first event. */
  lemma FirstLine(depth: nat, open: seq<TimerInfo>, evs: seq<Event>, clicolor: Option<string>)
    requires evs != [] && Nested(|open|, evs) && Fits(depth, evs)
    ensures evs[0].Open? ==>
      Replay(depth, open, evs, clicolor).lines[0] == StartStep(depth, evs[0].msg, clicolor).line
    ensures evs[0].Close? ==>
      |open| > 0 && CanEnd(depth) &&
      Replay(depth, open, evs, clicolor).lines[0]
        == EndStep(depth, open[|open| - 1], evs[0].suffix, evs[0].elapsed, clicolor).line
  {
  }

  /** After a balanced stretch, the counter and open guards are back, so the next line is as if it were absent. */
  lemma {:induction false} LineAfterBalanced(depth: nat, open: seq<TimerInfo>, mid: seq<Event>, rest: seq<Event>, clicolor: Option<string>)
    requires Balanced(mid) && rest != []
    requires Nested(|open|, mid + rest) && Fits(depth, mid + rest)
    ensures Nested(|open|, rest) && Fits(depth, rest)
    ensures |mid| < |Replay(depth, open, mid + rest, clicolor).lines|
    ensures Replay(depth, open, mid + rest, clicolor).lines[|mid|] == Replay(depth, open, rest, clicolor).lines[0]
  {
    ReplayAppend(depth, open, mid, rest, clicolor);
    BalancedRestores(depth, open, mid, clicolor);
  }

  /** A start followed by a balanced stretch and the end of its guard. */
  lemma {:induction false} MatchedPair(depth: nat, open: seq<TimerInfo>, msg: string, mid: seq<Event>,
                                       suffix: string, elapsed: nat, post: seq<Event>, clicolor: Option<string>)
    requires Balanced(mid)
    requires Nested(|open|, [Open(msg)] + (mid + ([Close(suffix, elapsed)] + post)))
    requires Fits(depth, [Open(msg)] + (mid + ([Close(suffix, elapsed)] + post)))
    ensures var lines := Replay(depth, open, [Open(msg)] + (mid + ([Close(suffix, elapsed)] + post)), clicolor).lines;
      1 + |mid| < |lines| && CanEnd(depth + 1) &&
      lines[0] == StartStep(depth, msg, clicolor).line &&
      lines[1 + |mid|] == EndStep(depth + 1, TimerInfo(msg), suffix, elapsed, clicolor).line
  {
    var closing := [Close(suffix, elapsed)] + post;
    var tail := [Open(msg)] + (mid + closing);
    FirstLine(depth, open, tail, clicolor);
    var s := StartStep(depth, msg, clicolor);
    var open' := open + [s.guard];
    assert tail[1..] == mid + closing;
    var rest := Replay(s.depth, open', mid + closing, clicolor);
    assert Replay(depth, open, tail, clicolor).lines == [s.line] + rest.lines;
    LineAfterBalanced(s.depth, open', mid, closing, clicolor);
    FirstLine(s.depth, open', closing, clicolor);
  }

  /** The same, for a matched pair after a prefix, in terms of the two steps. */
  lemma {:induction false} MatchedStepsAt(depth: nat, open: seq<TimerInfo>, pre: seq<Event>, tail: seq<Event>, msg: string,
                                          mid: seq<Event>, suffix: string, elapsed: nat, post: seq<Event>, clicolor: Option<string>)
    requires Balanced(mid) && tail == [Open(msg)] + (mid + ([Close(suffix, elapsed)] + post))
    requires Nested(|open|, pre + tail) && Fits(depth, pre + tail)
    ensures Nested(|open|, pre) && Fits(depth, pre)
    ensures var d := Replay(depth, open, pre, clicolor).depth;
      var lines := Replay(depth, open, pre + tail, clicolor).lines;
      d == depth + Net(pre) && |pre| + 1 + |mid| < |lines| && CanEnd(d + 1) &&
      lines[|pre|] == StartStep(d, msg, clicolor).line &&
      lines[|pre| + 1 + |mid|] == EndStep(d + 1, TimerInfo(msg), suffix, elapsed, clicolor).line
  {
    ReplayAppend(depth, open, pre, tail, clicolor);
    var ra := Replay(depth, open, pre, clicolor);
    MatchedPair(ra.depth, ra.open, msg, mid, suffix, elapsed, post, clicolor);
    var rt := Replay(ra.depth, ra.open, tail, clicolor).lines;
    IndexAfter(ra.lines, rt, 0);
    IndexAfter(ra.lines, rt, 1 + |mid|);
  }

  lemma IndexAfter<T>(x: seq<T>, y: seq<T>, k: nat)
    requires k < |y|
    ensures (x + y)[|x| + k] == y[k]
  {
  }

  /**
   * A start and the end that matches it (everything between them balanced):
   * both lines carry the same indent, twice the counter before the start, and
   * the end line's message begins with the start's label.
   */
  lemma MatchedLinesAlign(depth: nat, open: seq<TimerInfo>, pre: seq<Event>, msg: string, mid: seq<Event>,
                          suffix: string, elapsed: nat, post: seq<Event>, clicolor: Option<string>)
    requires Balanced(mid)
    requires Nested(|open|, pre + [Open(msg)] + mid + [Close(suffix, elapsed)] + post)
    requires Fits(depth, pre + [Open(msg)] + mid + [Close(suffix, elapsed)] + post)
    ensures var evs := pre + [Open(msg)] + mid + [Close(suffix, elapsed)] + post;
      var lines := Replay(depth, open, evs, clicolor).lines;
      var i, j := |pre|, |pre| + 1 + |mid|;
      j < |lines| && 0 <= depth + Net(pre) && 2 * (depth + Net(pre)) <= MessageWidth &&
      lines[i] == StartLine(IndentText(2 * (depth + Net(pre)), clicolor), msg) &&
      lines[j] == EndLine(IndentText(2 * (depth + Net(pre)), clicolor),
                          EndMessage(msg, suffix, 2 * (depth + Net(pre))), Duration.Format(elapsed))
  {
    var evs := pre + [Open(msg)] + mid + [Close(suffix, elapsed)] + post;
    var tail := [Open(msg)] + (mid + ([Close(suffix, elapsed)] + post));
    assert evs == pre + tail;
    MatchedStepsAt(depth, open, pre, tail, msg, mid, suffix, elapsed, post, clicolor);
  }
}
