/** The rules of helpers/a.py, registered under `a`: what a crashed
    program prints. Each anchors a fixed text at the start of the first line
    and consumes that line alone. */
module ARules {
  import opened Text

  const FloatingPoint := "Floating point exception"
  const SegFault := "Segmentation fault"

  /** The phrases the first lines of the two responses are known by. */
  const DivideNumber := "divide a number by 0"
  const NotSupposed := "isn't supposed to access"

  const DivideByZero: seq<string> := [
    "Looks like somewhere in your program, you're trying to " + DivideNumber + ".",
    "Check to see where in your program you're using the `/` or `%` operators, and be sure you never divide by 0 or "
      + "calculate a number modulo 0.",
    "If still unsure of where the problem is, stepping through your code with `debug50` may be helpful!"]

  const BadAccess: seq<string> := [
    "Looks like your program is trying to access areas of memory that it " + NotSupposed + ".",
    "Did you try to change a character in a hardcoded string?",
    "Are you accessing an element of an array beyond the size of the array?",
    "Are you dereferencing a pointer that you haven't initialized?",
    "Are you dereferencing a pointer whose value is `NULL`?",
    "Are you dereferencing a pointer after you've freed it?"]

  /** `re.match(prefix, lines[0])` answered with a fixed response. */
  function OnPrefix(lines: seq<string>, prefix: string, response: seq<string>): (r: Outcome)
    ensures r.Raises? <==> lines == []
    ensures r.Matched? <==> lines != [] && StartsWith(lines[0], prefix)
    ensures r.Matched? ==> r.consumed == lines[..1] && r.response == response
  {
    if lines == [] then Raises(IndexError)
    else if StartsWith(lines[0], prefix) then Matched(lines[0..1], response)
    else Declined
  }

  /** `floating_point_exception`: a division or remainder by zero. */
  function FloatingPointException(lines: seq<string>): (r: Outcome)
    ensures r.Raises? <==> lines == []
    ensures r.Matched? <==> lines != [] && StartsWith(lines[0], FloatingPoint)
    ensures r.Matched? ==> r.consumed == lines[..1] && |r.response| == 3 && Contains(r.response[0], DivideNumber)
  {
    Mentions("Looks like somewhere in your program, you're trying to ", DivideNumber, ".");
    OnPrefix(lines, FloatingPoint, DivideByZero)
  }

  /** `segmentation_fault`: memory the program may not touch. */
  function SegmentationFault(lines: seq<string>): (r: Outcome)
    ensures r.Raises? <==> lines == []
    ensures r.Matched? <==> lines != [] && StartsWith(lines[0], SegFault)
    ensures r.Matched? ==> r.consumed == lines[..1] && |r.response| == 6 && Contains(r.response[0], NotSupposed)
  {
    Mentions("Looks like your program is trying to access areas of memory that it ", NotSupposed, ".");
    OnPrefix(lines, SegFault, BadAccess)
  }

  lemma Mentions(head: string, phrase: string, tail: string)
    ensures Contains(head + phrase + tail, phrase)
  {
    assert (head + phrase + tail)[|head|..|head| + |phrase|] == phrase;
    ContainsAt(head + phrase + tail, phrase, |head|);
  }

  /** The two crashes are told apart: no first line is taken for both. */
  lemma CrashesDisjoint(lines: seq<string>)
    ensures !(FloatingPointException(lines).Matched? && SegmentationFault(lines).Matched?)
  {
    if lines != [] && StartsWith(lines[0], FloatingPoint) {
      assert lines[0][0] == FloatingPoint[0] != SegFault[0];
    }
  }
}
