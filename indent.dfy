/**
 * `compute_indent`: the padding in front of a start or end line. The value of
 * the `CLICOLOR` environment variable is passed in (`None` when it is unset or
 * unreadable); it is looked up afresh on every call in the source.
 */
module Indent {
  import opened Wrappers

  /** The decorative pad unit, a middle dot. */
  const PadChar: char := '\U{00B7}'

  /** A plain space when `CLICOLOR` is exactly "0", the middle dot otherwise. */
  function PadUnit(clicolor: Option<string>): (c: char)
    ensures c == ' ' <==> clicolor == Some("0")
    ensures c != ' ' ==> c == PadChar
  {
    match clicolor
    case Some(val) => if val == "0" then ' ' else PadChar
    case None => PadChar
  }

  /** Exactly `amount` pad units. */
  function IndentText(amount: nat, clicolor: Option<string>): (s: string)
    ensures |s| == amount
    ensures forall i :: 0 <= i < |s| ==> s[i] == PadUnit(clicolor)
  {
    seq(amount, _ => PadUnit(clicolor))
  }

  /** Builds the padding one unit at a time. */
  method ComputeIndent(amount: nat, clicolor: Option<string>) returns (indent: string)
    ensures indent == IndentText(amount, clicolor)
  {
    indent := "";
    var pad := PadUnit(clicolor);
    for i := 0 to amount
      invariant indent == IndentText(i, clicolor)
    {
      indent := indent + [pad];
    }
  }
}
