/** The advice `definitely_lost` adds when Memcheck asked for a rerun with
    `--leak-check=full`: the search, over the whole output at once, for a
    command line followed somewhere later by that request. */
module ValgrindRerun {
  import opened Text
  import opened ValgrindFrames
  import opened ValgrindScan

  const Rerun: seq<Token> := [Lit(" Rerun with --leak-check=full to see details of leaked memory")]
  const RerunFull := "Run `valgrind --leak-check=full {}` for more details."

  predicate IsRerunHint(line: string) { Says(line, Rerun, true).Some? }

  /** `^==\d+== Command: ([^\n]+)$`: the command that was run. */
  function CommandOf(line: string): (r: Option<string>)
    ensures r.Some? ==> r.value != [] && AfterPid(line) == Some(" Command: " + r.value)
  {
    match AfterPid(line)
    case None => None
    case Some(rest) =>
      if |rest| > 10 && rest[..10] == " Command: " then
        assert rest == rest[..10] + rest[10..];
        Some(rest[10..])
      else None
  }

  /** The first item that `item` reads off a line from `a` on, among the
      lines with a line satisfying `later` somewhere after them. */
  function FirstBefore<T>(lines: seq<string>, a: nat, item: string -> Option<T>, later: string -> bool): Option<T>
    decreases |lines| - a
  {
    if a >= |lines| then None
    else if item(lines[a]).Some? && FirstLine(lines, later, a + 1).Some? then item(lines[a])
    else FirstBefore(lines, a + 1, item, later)
  }

  /** The item found is read off a line with a `later` line after it, and
      no line before it has both; nothing is found exactly when no line
      has both. */
  lemma {:induction false} FirstBeforeFirst<T>(lines: seq<string>, a: nat, item: string -> Option<T>, later: string -> bool)
    ensures FirstBefore(lines, a, item, later).Some? ==>
      exists k :: a <= k < |lines| && item(lines[k]) == FirstBefore(lines, a, item, later) && FirstLine(lines, later, k + 1).Some? &&
        forall m :: a <= m < k && item(lines[m]).Some? ==> FirstLine(lines, later, m + 1).None?
    ensures FirstBefore(lines, a, item, later).None? <==>
      forall k :: a <= k < |lines| && item(lines[k]).Some? ==> FirstLine(lines, later, k + 1).None?
    decreases |lines| - a
  {
    if a < |lines| {
      FirstBeforeFirst(lines, a + 1, item, later);
      if !(item(lines[a]).Some? && FirstLine(lines, later, a + 1).Some?) && FirstBefore(lines, a, item, later).Some? {
        var k :| a + 1 <= k < |lines| && item(lines[k]) == FirstBefore(lines, a, item, later) && FirstLine(lines, later, k + 1).Some? &&
          forall m :: a + 1 <= m < k && item(lines[m]).Some? ==> FirstLine(lines, later, m + 1).None?;
        assert forall m :: a <= m < k && item(lines[m]).Some? ==> FirstLine(lines, later, m + 1).None?;
      }
    }
  }

  /** The multi-line search for a command line followed, somewhere later,
      by the request to rerun with `--leak-check=full`: the first command
      line that has such a request after it. */
  function CommandFrom(lines: seq<string>): Option<string>
  {
    FirstBefore(lines, 0, CommandOf, IsRerunHint)
  }

  /** The command found is that of the first command line with a rerun
      request after it, and none is found exactly when no command line has
      one. */
  lemma CommandFromFirst(lines: seq<string>)
    ensures CommandFrom(lines).Some? ==>
      exists k :: 0 <= k < |lines| && CommandOf(lines[k]) == CommandFrom(lines) && FirstLine(lines, IsRerunHint, k + 1).Some? &&
        forall m :: 0 <= m < k && CommandOf(lines[m]).Some? ==> FirstLine(lines, IsRerunHint, m + 1).None?
    ensures CommandFrom(lines).None? <==>
      forall k :: 0 <= k < |lines| && CommandOf(lines[k]).Some? ==> FirstLine(lines, IsRerunHint, k + 1).None?
  {
    FirstBeforeFirst(lines, 0, CommandOf, IsRerunHint);
  }

  function RerunHint(lines: seq<string>): seq<string>
  {
    match CommandFrom(lines)
    case None => []
    case Some(command) => [Format(RerunFull, [command])]
  }
}
