/**
 * The lines the timer prints, kept as records rather than terminal text.
 * Colour styling is the identity here, so a line's text is its plain characters.
 */
module Lines {

  /** Width of the `{:8}` field the "Start:" and "End:" tags are printed in. */
  const TagWidth: nat := 8

  datatype Line =
    | StartLine(indent: string, msg: string)
    | EndLine(indent: string, message: string, duration: string)

  function Max(a: nat, b: nat): nat
  {
    if a < b then b else a
  }

  /** Left-aligned `s` filled on the right with `fill` up to `width`; never truncated. */
  function PadRight(s: string, fill: char, width: nat): (r: string)
    ensures |r| == Max(|s|, width)
    ensures r[..|s|] == s
    ensures forall i :: |s| <= i < |r| ==> r[i] == fill
  {
    if |s| < width then s + seq(width - |s|, _ => fill) else s
  }

  /** What follows the tag: the label of a start line, message and duration of an end line. */
  function Content(line: Line): string
  {
    match line
    case StartLine(_, msg) => msg
    case EndLine(_, message, duration) => message + duration
  }

  /** The printed text: indent, tag in its field of 8, one space, then the line's content. */
  function Render(line: Line): (r: string)
    ensures |r| == |line.indent| + TagWidth + 1 + |Content(line)|
    ensures r[..|line.indent|] == line.indent
    ensures r[|line.indent|..|line.indent| + TagWidth + 1]
      == if line.StartLine? then "Start:   " else "End:     "
    ensures r[|line.indent| + TagWidth + 1..] == Content(line)
  {
    match line
    case StartLine(indent, msg) =>
      indent + PadRight("Start:", ' ', TagWidth) + " " + msg
    case EndLine(indent, message, duration) =>
      indent + PadRight("End:", ' ', TagWidth) + " " + message + duration
  }
}
