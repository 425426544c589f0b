/** The shape of Memcheck's output lines and the stack-frame inference of
    helpers/valgrind.py (`_frame_extract`).

    Every Memcheck line starts with the process id between `==` marks,
    `==4412== `; the rules recognise what follows it with patterns made of
    literal text and `[\d,]+` counts, which `Tokens` matches. */
module ValgrindFrames {
  import opened Text

  // ---------------------------------------------------------------------
  // The `==\d+==` prefix

  /** The text after a leading `==\d+==`. */
  function AfterPid(line: string): (r: Option<string>)
    ensures r.Some? ==> |r.value| + 4 <= |line|
    ensures r.Some? ==>
      (var pid := line[2..|line| - |r.value| - 2]; pid != [] && AllDigits(pid) && line == "==" + pid + "==" + r.value)
  {
    if !StartsWith(line, "==") then None
    else
      var n := Run(line, 2, IsDigit);
      if n == 0 || !OccursAt(line, "==", 2 + n) then None
      else
        var rest := line[4 + n..];
        assert line == line[..2] + line[2..2 + n] + line[2 + n..4 + n] + rest;
        Some(rest)
  }

  /** Whatever follows the process id, it is recovered. */
  lemma AfterPidPrefixed(pid: string, rest: string)
    requires pid != [] && AllDigits(pid)
    ensures AfterPid("==" + pid + "==" + rest) == Some(rest)
  {
    var line := "==" + pid + "==" + rest;
    assert line[..2] == "==";
    RunStops(line, 2, IsDigit, |pid|);
    assert line[2 + |pid|..4 + |pid|] == "==";
    assert line[4 + |pid|..] == rest;
  }

  // ---------------------------------------------------------------------
  // Patterns of literal text and counts

  /** One piece of a pattern: literal text, or a greedy `([\d,]+)` group. */
  datatype Token = Lit(text: string) | Count

  function Counts(toks: seq<Token>): nat
  {
    if toks == [] then 0 else (if toks[0].Count? then 1 else 0) + Counts(toks[1..])
  }

  predicate IsCount(s: string)
  {
    s != [] && forall i :: 0 <= i < |s| ==> IsDigitOrComma(s[i])
  }

  /** The text a pattern matches with the given groups. */
  function Render(toks: seq<Token>, groups: seq<string>): string
    requires |groups| == Counts(toks)
  {
    if toks == [] then []
    else match toks[0]
      case Lit(t) => t + Render(toks[1..], groups)
      case Count => groups[0] + Render(toks[1..], groups[1..])
  }

  /** The groups of `toks` matched at the start of `s`; when `anchored`
      (the pattern ends in `$`) the match must reach the end of `s`. */
  function Tokens(s: string, toks: seq<Token>, anchored: bool): (r: Option<seq<string>>)
    ensures r.Some? ==> |r.value| == Counts(toks)
    ensures r.Some? ==> forall k :: 0 <= k < |r.value| ==> IsCount(r.value[k])
    ensures r.Some? && anchored ==> s == Render(toks, r.value)
    ensures r.Some? && !anchored ==> StartsWith(s, Render(toks, r.value))
    decreases |toks|
  {
    if toks == [] then (if anchored && s != [] then None else Some([]))
    else match toks[0]
      case Lit(t) =>
        if !StartsWith(s, t) then None
        else
          var rest := Tokens(s[|t|..], toks[1..], anchored);
          if rest.None? then None
          else
            LitRenders(s, toks, anchored, rest.value);
            Some(rest.value)
      case Count =>
        var n := Run(s, 0, IsDigitOrComma);
        if n == 0 then None
        else
          var rest := Tokens(s[n..], toks[1..], anchored);
          if rest.None? then None
          else
            CountRenders(s, n, toks, anchored, rest.value);
            Some([s[..n]] + rest.value)
  }

  /** A literal followed by what the rest of the pattern matched renders
      what the whole pattern matched. */
  lemma LitRenders(s: string, toks: seq<Token>, anchored: bool, g: seq<string>)
    requires toks != [] && toks[0].Lit? && StartsWith(s, toks[0].text)
    requires |g| == Counts(toks[1..])
    requires anchored ==> s[|toks[0].text|..] == Render(toks[1..], g)
    requires !anchored ==> StartsWith(s[|toks[0].text|..], Render(toks[1..], g))
    ensures |g| == Counts(toks)
    ensures anchored ==> s == Render(toks, g)
    ensures !anchored ==> StartsWith(s, Render(toks, g))
  {
    var t := toks[0].text;
    assert s == t + s[|t|..];
  }

  /** A count of `n` characters followed by what the rest of the pattern
      matched renders what the whole pattern matched. */
  lemma CountRenders(s: string, n: nat, toks: seq<Token>, anchored: bool, g: seq<string>)
    requires toks != [] && toks[0].Count? && 0 < n <= |s|
    requires forall k :: 0 <= k < n ==> IsDigitOrComma(s[k])
    requires |g| == Counts(toks[1..])
    requires forall k :: 0 <= k < |g| ==> IsCount(g[k])
    requires anchored ==> s[n..] == Render(toks[1..], g)
    requires !anchored ==> StartsWith(s[n..], Render(toks[1..], g))
    ensures |[s[..n]] + g| == Counts(toks)
    ensures forall k :: 0 <= k < |[s[..n]] + g| ==> IsCount(([s[..n]] + g)[k])
    ensures anchored ==> s == Render(toks, [s[..n]] + g)
    ensures !anchored ==> StartsWith(s, Render(toks, [s[..n]] + g))
  {
    var h := [s[..n]] + g;
    assert h[0] == s[..n] && h[1..] == g;
    assert s == s[..n] + s[n..];
    forall k | 0 <= k < |h|
      ensures IsCount(h[k])
    {
      if k > 0 {
        assert h[k] == g[k - 1];
      }
    }
  }

  /** A pattern whose counts are each followed by the end or by literal text
      that cannot continue the count, so that the greedy group stops exactly
      where the count ends. */
  predicate Separated(toks: seq<Token>)
  {
    forall k :: 0 <= k < |toks| && toks[k].Count? ==>
      k + 1 == |toks| ||
      (toks[k + 1].Lit? && toks[k + 1].text != [] && !IsDigitOrComma(toks[k + 1].text[0]))
  }

  /** Rendering a separated pattern and matching it again gives back the
      groups. */
  lemma {:induction false} TokensRender(toks: seq<Token>, groups: seq<string>)
    requires Separated(toks) && |groups| == Counts(toks)
    requires forall k :: 0 <= k < |groups| ==> IsCount(groups[k])
    ensures Tokens(Render(toks, groups), toks, true) == Some(groups)
    decreases |toks|
  {
    if toks != [] {
      var s := Render(toks, groups);
      assert Separated(toks[1..]) by {
        forall k | 0 <= k < |toks[1..]| && toks[1..][k].Count?
          ensures k + 1 == |toks[1..]| ||
            (toks[1..][k + 1].Lit? && toks[1..][k + 1].text != [] && !IsDigitOrComma(toks[1..][k + 1].text[0]))
        {
          assert toks[k + 1] == toks[1..][k];
        }
      }
      match toks[0]
      case Lit(t) =>
        TokensRender(toks[1..], groups);
        assert s[|t|..] == Render(toks[1..], groups);
      case Count =>
        var g := groups[0];
        var tail := Render(toks[1..], groups[1..]);
        assert s == g + tail;
        TokensRender(toks[1..], groups[1..]);
        if |toks| == 1 {
          assert tail == [];
        } else {
          assert toks[1].Lit? && toks[1].text != [] && !IsDigitOrComma(toks[1].text[0]);
          assert tail == toks[1].text + Render(toks[2..], groups[1..]);
          assert tail[0] == toks[1].text[0];
        }
        assert forall k :: 0 <= k < |g| ==> IsDigitOrComma(s[k]) by {
          assert forall k :: 0 <= k < |g| ==> s[k] == g[k];
          assert groups[0] == g;
          assert IsCount(groups[0]);
        }
        RunStops(s, 0, IsDigitOrComma, |g|);
        assert s[..|g|] == g && s[|g|..] == tail;
        assert [g] + groups[1..] == groups;
        assert Tokens(s, toks, true) == Some([s[..|g|]] + groups[1..]);
    }
  }

  /** The groups of a Memcheck line `==\d+==<pattern>`. */
  function Says(line: string, toks: seq<Token>, anchored: bool): Option<seq<string>>
  {
    match AfterPid(line)
    case None => None
    case Some(rest) => Tokens(rest, toks, anchored)
  }

  // ---------------------------------------------------------------------
  // Stack frames

  /** One line of a stack trace, `at 0x4C2AB80: malloc (vg_replace_malloc.c:299)`:
      a hexadecimal address, the function, the file and, when the program
      was compiled with debugging information, the line. */
  datatype Frame = Frame(address: string, callee: string, file: string, line: Option<string>)

  /** `0x400546: foo (foo.c:6)`, which a frame line shows after `at ` or `by `. */
  function FrameText(f: Frame): string
  {
    f.address + (": " + (f.callee + (" (" + (f.file + Close(f.line)))))
  }

  /** How a frame line ends: `:6)` with a line number, `)` without. */
  function Close(line: Option<string>): string
  {
    if line.Some? then ":" + line.value + ")" else ")"
  }

  /** Two pieces that follow each other in `s` make their concatenation. */
  lemma OccursJoin(s: string, a: string, b: string, i: nat)
    requires OccursAt(s, a, i) && OccursAt(s, b, i + |a|)
    ensures OccursAt(s, a + b, i)
  {
    assert s[i..i + |a + b|] == s[i..i + |a|] + s[i + |a|..i + |a| + |b|];
  }

  /** `:(\d+)\)` at `j`: the line number it gives. */
  function LineSuffix(s: string, j: nat): (r: Option<string>)
    ensures r.Some? ==> j + |r.value| + 2 <= |s| && s[j..j + |r.value| + 2] == ":" + r.value + ")"
    ensures r.Some? ==> r.value != [] && AllDigits(r.value)
  {
    if j >= |s| || s[j] != ':' then None
    else
      var d := Run(s, j + 1, IsDigit);
      if d == 0 || j + 1 + d >= |s| || s[j + 1 + d] != ')' then None
      else
        assert s[j..j + d + 2] == [s[j]] + s[j + 1..j + 1 + d] + [s[j + 1 + d]];
        assert AllDigits(s[j + 1..j + 1 + d]);
        Some(s[j + 1..j + 1 + d])
  }

  /** The lazy `(.+?)(?::(\d+))?\)` can stop at `j`. */
  predicate FileStops(s: string, j: nat)
  {
    j < |s| && (s[j] == ')' || LineSuffix(s, j).Some?)
  }

  /** The first position from `j` on where the file name can stop. */
  function FileEnd(s: string, j: nat): (r: Option<nat>)
    ensures r.Some? ==> j <= r.value < |s| && FileStops(s, r.value)
    ensures r.Some? ==> forall k :: j <= k < r.value ==> !FileStops(s, k)
    ensures r.None? ==> forall k :: j <= k ==> !FileStops(s, k)
    decreases |s| - j
  {
    if j >= |s| then None
    else if FileStops(s, j) then Some(j)
    else FileEnd(s, j + 1)
  }

  /** The greedy `(.+) \(` before a file name can end at `k`. */
  predicate CalleeStops(s: string, k: nat)
  {
    OccursAt(s, " (", k) && FileEnd(s, k + 3).Some?
  }

  /** The last position, down from `k` to just after `q`, where the function
      name can end. */
  function CalleeEnd(s: string, q: nat, k: int): (r: Option<nat>)
    ensures r.Some? ==> q < r.value <= k && CalleeStops(s, r.value)
    ensures r.Some? ==> forall m :: r.value < m <= k ==> !CalleeStops(s, m)
    ensures r.None? ==> forall m :: q < m <= k ==> !CalleeStops(s, m)
    decreases k
  {
    if k <= q then None
    else if CalleeStops(s, k) then Some(k)
    else CalleeEnd(s, q, k - 1)
  }

  /** `    (?:at|by) (0x[0-9A-Fa-f]+): (.+) \((.+?)(?::(\d+))?\)`, at the
      start of what follows the process id. */
  function FrameAfterPid(s: string): (r: Option<Frame>)
    ensures r.Some? ==>
      StartsWith(s, "    at " + FrameText(r.value)) || StartsWith(s, "    by " + FrameText(r.value))
    ensures r.Some? ==> |r.value.address| >= 3 && r.value.address[..2] == "0x"
    ensures r.Some? ==> r.value.callee != [] && r.value.file != []
  {
    if !(StartsWith(s, "    at 0x") || StartsWith(s, "    by 0x")) then None
    else
      var h := Run(s, 9, IsHexDigit);
      if h == 0 || !OccursAt(s, ": ", 9 + h) then None
      else
        match CalleeEnd(s, 11 + h, |s| - 2)
        case None => None
        case Some(k) =>
          var j := FileEnd(s, k + 3).value;
          var f := Frame(s[7..9 + h], s[11 + h..k], s[k + 2..j], LineSuffix(s, j));
          AddressAt(s, h);
          CloseAt(s, j);
          FrameSpelled(s, h, k, j, f);
          LeadThen(s, FrameText(f));
          Some(f)
  }

  /** `^==\d+==    (?:at|by) (0x[0-9A-Fa-f]+): (.+) \((.+?)(?::(\d+))?\)`:
      the frame a line shows, if it is a frame line. */
  function ParseFrame(line: string): (r: Option<Frame>)
    ensures r.Some? ==> AfterPid(line).Some? && FrameAfterPid(AfterPid(line).value) == r
  {
    match AfterPid(line)
    case None => None
    case Some(s) => FrameAfterPid(s)
  }

  /** Where the file name stops, the line number and the bracket follow. */
  lemma CloseAt(s: string, j: nat)
    requires FileStops(s, j)
    ensures OccursAt(s, Close(LineSuffix(s, j)), j)
  {
    if LineSuffix(s, j).None? {
      assert s[j..j + 1] == [s[j]];
    }
  }

  /** The pieces of a frame line, where the recogniser found them, spell
      the frame's text after the `at ` or `by `. */
  lemma FrameSpelled(s: string, h: nat, k: nat, j: nat, f: Frame)
    requires 11 + h < k && k + 2 < j < |s| && OccursAt(s, ": ", 9 + h) && OccursAt(s, " (", k)
    requires f.address == s[7..9 + h] && f.callee == s[11 + h..k] && f.file == s[k + 2..j]
    requires OccursAt(s, Close(f.line), j)
    ensures OccursAt(s, FrameText(f), 7)
  {
    OccursJoin(s, f.file, Close(f.line), k + 2);
    OccursJoin(s, " (", f.file + Close(f.line), k);
    OccursJoin(s, f.callee, " (" + (f.file + Close(f.line)), 11 + h);
    OccursJoin(s, ": ", f.callee + (" (" + (f.file + Close(f.line))), 9 + h);
    OccursJoin(s, f.address, ": " + (f.callee + (" (" + (f.file + Close(f.line)))), 7);
  }

  /** The address group starts with `0x`. */
  lemma AddressAt(s: string, h: nat)
    requires StartsWith(s, "    at 0x") || StartsWith(s, "    by 0x")
    requires 1 <= h && 9 + h <= |s|
    ensures |s[7..9 + h]| >= 3 && s[7..9 + h][..2] == "0x"
  {
    assert s[7..9 + h][..2] == s[..9][7..9];
  }

  /** `    at ` or `    by ` followed by a frame's text. */
  lemma LeadThen(s: string, t: string)
    requires StartsWith(s, "    at 0x") || StartsWith(s, "    by 0x")
    requires OccursAt(s, t, 7)
    ensures StartsWith(s, "    at " + t) || StartsWith(s, "    by " + t)
  {
    var lead := if StartsWith(s, "    at 0x") then "    at " else "    by ";
    assert s[..7] == s[..9][..7] == lead;
    OccursJoin(s, lead, t, 0);
  }


  /** The maximal run of lines at the start of `lines` that `parse`
      accepts, parsed. */
  function Leading<T>(lines: seq<string>, parse: string -> Option<T>): (r: seq<T>)
    ensures |r| <= |lines|
  {
    if lines == [] || parse(lines[0]).None? then []
    else [parse(lines[0]).value] + Leading(lines[1..], parse)
  }

  /** Each line of the leading run parses to its entry, and the line after
      the run, if any, does not parse. */
  lemma {:induction false} LeadingParsed<T>(lines: seq<string>, parse: string -> Option<T>)
    ensures var r := Leading(lines, parse);
      && (forall k :: 0 <= k < |r| ==> parse(lines[k]) == Some(r[k]))
      && (|r| == |lines| || parse(lines[|r|]).None?)
  {
    if lines != [] && parse(lines[0]).Some? {
      LeadingParsed(lines[1..], parse);
      var r := Leading(lines, parse);
      forall k | 1 <= k < |r|
        ensures parse(lines[k]) == Some(r[k])
      {
        assert lines[k] == lines[1..][k - 1];
      }
    }
  }

  /** The leading run is the only list that the first lines spell, one by
      one, up to a line that `parse` rejects. */
  lemma {:induction false} LeadingUnique<T>(lines: seq<string>, parse: string -> Option<T>, xs: seq<T>)
    requires |xs| <= |lines|
    requires forall k :: 0 <= k < |xs| ==> parse(lines[k]) == Some(xs[k])
    requires |xs| == |lines| || parse(lines[|xs|]).None?
    ensures xs == Leading(lines, parse)
  {
    if xs != [] {
      assert parse(lines[0]) == Some(xs[0]);
      LeadingUnique(lines[1..], parse, xs[1..]);
      assert xs == [xs[0]] + xs[1..];
    }
  }

  /** The frames of the stack trace that `lines` starts with. */
  function LeadingFrames(lines: seq<string>): seq<Frame>
  {
    Leading(lines, ParseFrame)
  }

  function Reversed<T>(s: seq<T>): (r: seq<T>)
    ensures |r| == |s|
    ensures forall k :: 0 <= k < |s| ==> r[k] == s[|s| - 1 - k]
  {
    if s == [] then [] else Reversed(s[1..]) + [s[0]]
  }

  /** The three tests `_frame_extract` applies to adjacent frames of the
      reversed trace, caller first: a caller with a line number whose callee
      has none (the program's code calling into a library); a caller without
      a line number in a different file from its callee; or two frames with
      line numbers where the caller's address is written with fewer digits. */
  predicate Fires(caller: Frame, callee: Frame)
  {
    (caller.line.Some? && callee.line.None?) ||
    (caller.line.None? && caller.file != callee.file) ||
    (caller.line.Some? && callee.line.Some? && |caller.address| < |callee.address|)
  }

  /** The pair of frames `m` and `m + 1` of `fs` fires. */
  predicate FiresAt(fs: seq<Frame>, m: nat)
  {
    m + 1 < |fs| && Fires(fs[m], fs[m + 1])
  }

  /** Where the scan of adjacent pairs from `i` on stops in `fs`
      (outermost first): at the first frame of the first pair that fires,
      else at the last frame. */
  function StopAt(fs: seq<Frame>, i: nat): (r: nat)
    requires i < |fs|
    ensures i <= r < |fs|
    ensures forall m: nat :: i <= m < r ==> !FiresAt(fs, m)
    ensures r + 1 == |fs| || FiresAt(fs, r)
    decreases |fs| - i
  {
    if i + 1 == |fs| || Fires(fs[i], fs[i + 1]) then i else StopAt(fs, i + 1)
  }

  /** The frame `_frame_extract` picks from the reversed frames. */
  function Infer(fs: seq<Frame>): (r: Option<Frame>)
    ensures r.None? <==> fs == []
  {
    if fs == [] then None else Some(fs[StopAt(fs, 0)])
  }

  /** `_frame_extract(lines)`: how many frame lines lead `lines`, and the
      frame most likely to be the program's own. */
  function Extract(lines: seq<string>): (nat, Option<Frame>)
  {
    var fs := LeadingFrames(lines);
    (|fs|, Infer(Reversed(fs)))
  }

  /** `_frame_extract`: collect the leading frame lines, reverse them so
      that the outermost call comes first, and scan adjacent pairs for the
      first that fires. */
  method FrameExtract(lines: seq<string>) returns (count: nat, frame: Option<Frame>)
    ensures (count, frame) == Extract(lines)
  {
    var frames := CollectLeading(lines, ParseFrame);
    frames := Reversed(frames);
    count := |frames|;
    var j := 0;
    while j + 1 < |frames|
      invariant frames == [] || (j < |frames| && StopAt(frames, j) == StopAt(frames, 0))
    {
      if Fires(frames[j], frames[j + 1]) {
        return count, Some(frames[j]);
      }
      j := j + 1;
    }
    frame := if frames == [] then None else Some(frames[|frames| - 1]);
  }

  /** The first half of `_frame_extract`, for a line recogniser `parse`:
      append what each line parses to until a line does not parse. */
  method CollectLeading<T>(lines: seq<string>, parse: string -> Option<T>) returns (xs: seq<T>)
    ensures xs == Leading(lines, parse)
  {
    xs := [];
    var i := 0;
    while i < |lines|
      invariant i <= |lines| && |xs| == i
      invariant forall k :: 0 <= k < i ==> parse(lines[k]) == Some(xs[k])
    {
      var x := parse(lines[i]);
      if x.None? {
        break;
      }
      xs := xs + [x.value];
      i := i + 1;
    }
    LeadingUnique(lines, parse, xs);
  }


  /** With no pair firing, the frame picked is the first frame parsed: the
      innermost call, where the error happened. */
  lemma InnermostByDefault(parsed: seq<Frame>)
    requires parsed != []
    requires forall m: nat :: !FiresAt(Reversed(parsed), m)
    ensures Infer(Reversed(parsed)) == Some(parsed[0])
  {
    var k := StopAt(Reversed(parsed), 0);
  }


  /** A stack of `malloc` (in the Memcheck preload), `foo (foo.c:6)` and
      `main (foo.c:12)` points at `foo`: the program's code that called the
      library. */
  lemma PicksCallerOfLibrary()
    ensures
      var malloc := Frame("0x4C2AB80", "malloc", "in /usr/lib/valgrind/vgpreload_memcheck-amd64-linux.so", None);
      var foo := Frame("0x400546", "foo", "foo.c", Some("6"));
      var main := Frame("0x400568", "main", "foo.c", Some("12"));
      Infer(Reversed([malloc, foo, main])) == Some(foo)
  {
    var malloc := Frame("0x4C2AB80", "malloc", "in /usr/lib/valgrind/vgpreload_memcheck-amd64-linux.so", None);
    var foo := Frame("0x400546", "foo", "foo.c", Some("6"));
    var main := Frame("0x400568", "main", "foo.c", Some("12"));
    var fs := Reversed([malloc, foo, main]);
    assert fs == [main, foo, malloc];
    assert !FiresAt(fs, 0) && FiresAt(fs, 1);
  }

  // ---------------------------------------------------------------------
  // The hints about a frame

  const LineHint := "Take a closer look at line {} of `{}`."
  const CalleeHint := "Take a closer look at `{}`."
  const DebugHint := "And be sure to compile your program with `-ggdb3` to see line numbers in `valgrind`'s output."

  /** What the rules add about the frame `_frame_extract` picked: its line
      and file when it has a line number, else its function and a reminder
      to compile with debugging information. */
  function FrameHints(frame: Option<Frame>): (r: seq<string>)
    ensures frame.None? ==> r == []
    ensures frame.Some? && frame.value.line.Some? ==> r == [Format(LineHint, [frame.value.line.value, frame.value.file])]
    ensures frame.Some? && frame.value.line.None? ==> r == [Format(CalleeHint, [frame.value.callee]), DebugHint]
  {
    match frame
    case None => []
    case Some(f) =>
      if f.line.Some? then [Format(LineHint, [f.line.value, f.file])]
      else [Format(CalleeHint, [f.callee]), DebugHint]
  }

  // ---------------------------------------------------------------------
  // A report and the trace under it

  /** A match that is a window of `lines` starting at line `i`. */
  ghost predicate WindowAt(lines: seq<string>, i: nat, r: Outcome)
  {
    r.Matched? ==> 1 <= |r.consumed| && i + |r.consumed| <= |lines| && r.consumed == lines[i..i + |r.consumed|]
  }

  /** `return lines[i:i+1+frames], response` after
      `frames, frame = _frame_extract(lines[i+1:])`: the message line and
      the stack trace under it, with the hints about the likely frame. */
  function Report(lines: seq<string>, i: nat, response: seq<string>): (r: Outcome)
    requires i < |lines|
    ensures r.Matched? && i + 1 + |LeadingFrames(lines[i + 1..])| <= |lines|
    ensures r.consumed == lines[i..i + 1 + |LeadingFrames(lines[i + 1..])|]
    ensures r.response == response + FrameHints(Extract(lines[i + 1..]).1)
    ensures WindowAt(lines, i, r)
  {
    Matched(lines[i..i + 1 + |LeadingFrames(lines[i + 1..])|], response + FrameHints(Extract(lines[i + 1..]).1))
  }

  /** The report, computed by running `_frame_extract`. */
  method ReportAt(lines: seq<string>, i: nat, response: seq<string>) returns (r: Outcome)
    requires i < |lines|
    ensures r == Report(lines, i, response)
  {
    var frames, frame := FrameExtract(lines[i + 1..]);
    ReportConsumes(lines, i, response, frames);
    ReportResponds(lines, i, response, frame);
    r := Matched(lines[i..i + 1 + frames], response + FrameHints(frame));
  }

  /** The count `_frame_extract` returns on the lines after the message
      makes the window the report consumes. */
  lemma ReportConsumes(lines: seq<string>, i: nat, response: seq<string>, frames: nat)
    requires i < |lines| && frames == Extract(lines[i + 1..]).0
    ensures i + 1 + frames <= |lines|
    ensures Report(lines, i, response).consumed == lines[i..i + 1 + frames]
  {
    ExtractCount(lines[i + 1..]);
  }

  /** The frame `_frame_extract` returns makes the hints the report adds. */
  lemma ReportResponds(lines: seq<string>, i: nat, response: seq<string>, frame: Option<Frame>)
    requires i < |lines| && frame == Extract(lines[i + 1..]).1
    ensures Report(lines, i, response).response == response + FrameHints(frame)
  {
  }

  /** The count `_frame_extract` reports is the length of the leading run. */
  lemma ExtractCount(lines: seq<string>)
    ensures Extract(lines).0 == |LeadingFrames(lines)|
  {
  }
}
