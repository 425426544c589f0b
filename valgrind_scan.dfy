/** What the Memcheck rules of helpers/valgrind.py share: the banner check
    on the first line, the scan for the first line that carries a rule's
    message, and the tail of the rules that quote a count of bytes. */
module ValgrindScan {
  import opened Text
  import opened ValgrindFrames

  /** `^==\d+== Memcheck, a memory error detector$` */
  const Banner: seq<Token> := [Lit(" Memcheck, a memory error detector")]

  predicate IsBanner(line: string) { Says(line, Banner, true).Some? }

  /** `lines[0]` raises on no output, and output without the banner is
      declined. */
  ghost predicate BannerGated(lines: seq<string>, r: Outcome)
  {
    && (lines == [] ==> r == Raises(IndexError))
    && (lines != [] && !IsBanner(lines[0]) ==> r == Declined)
  }

  /** With the banner, the rule declines exactly when no line satisfies `p`,
      and a match starts at the first line that does. */
  ghost predicate AnswersFirst(lines: seq<string>, p: string -> bool, r: Outcome)
  {
    && (lines != [] && IsBanner(lines[0]) ==> (r == Declined <==> FirstLine(lines, p, 0).None?))
    && (r.Matched? ==> FirstLine(lines, p, 0).Some?)
    && (r.Matched? && FirstLine(lines, p, 0).Some? ==> WindowAt(lines, FirstLine(lines, p, 0).value, r))
  }

  /** The loop the rules after `all_heap_blocks_freed` share: check the
      banner on `lines[0]`, then answer the first line that satisfies `p`. */
  function Scan(lines: seq<string>, p: string -> bool, answer: (seq<string>, nat) -> Outcome): (r: Outcome)
    ensures BannerGated(lines, r)
  {
    if lines == [] then Raises(IndexError)
    else if !IsBanner(lines[0]) then Declined
    else match FirstLine(lines, p, 0)
      case None => Declined
      case Some(i) => answer(lines, i)
  }

  /** `answer` never declines a line that satisfies `p`, and its matches
      start at that line. */
  ghost predicate Answers(lines: seq<string>, p: string -> bool, answer: (seq<string>, nat) -> Outcome)
  {
    forall i :: 0 <= i < |lines| && p(lines[i]) ==> !answer(lines, i).Declined? && WindowAt(lines, i, answer(lines, i))
  }

  /** Scanning with such an answer declines exactly when no line satisfies
      `p`, and matches at the first line that does. */
  lemma ScanAnswersFirst(lines: seq<string>, p: string -> bool, answer: (seq<string>, nat) -> Outcome)
    requires Answers(lines, p, answer)
    ensures AnswersFirst(lines, p, Scan(lines, p, answer))
  {
  }

  /** "bytes" for a count above one, else "byte". */
  function Unit(n: nat): string
  {
    if n > 1 then "bytes" else "byte"
  }

  /** `matches.group(1)` of an anchored message: its first count. */
  function FirstCount(line: string, toks: seq<Token>): (r: Option<string>)
    ensures r.Some? ==> IsCount(r.value)
  {
    match Says(line, toks, true)
    case None => None
    case Some(g) => if g == [] then None else Some(g[0])
  }

  /** The tail of the rules that quote a count of bytes: `locale.atoi` on
      the count, which raises ValueError on a count without digits, then
      the report on line `i` and the trace under it. */
  function CountedReport(lines: seq<string>, i: nat, count: Option<string>, respond: (string, nat) -> seq<string>): (r: Outcome)
    requires i < |lines|
    requires count.Some? ==> IsCount(count.value)
    ensures r.Declined? <==> count.None?
    ensures WindowAt(lines, i, r)
    ensures r.Raises? ==> r.error == ValueError
    ensures r.Raises? <==> count.Some? && forall k :: 0 <= k < |count.value| ==> count.value[k] == ','
  {
    match count
    case None => Declined
    case Some(c) =>
      var n := LocaleAtoi(c);
      if n.None? then Raises(ValueError)
      else Report(lines, i, respond(c, n.value))
  }

  /** The tail of the rules that quote a count from a summary line: declined
      when the count is zero, ValueError when it has no digits, and
      otherwise the summary line alone with the response. */
  function SummaryReport(lines: seq<string>, i: nat, count: Option<string>, respond: (string, nat) -> seq<string>): (r: Outcome)
    requires i < |lines|
    requires count.Some? ==> IsCount(count.value)
    ensures r.Declined? <==> count.None? || LocaleAtoi(count.value) == Some(0)
    ensures r.Raises? <==> count.Some? && forall k :: 0 <= k < |count.value| ==> count.value[k] == ','
    ensures r.Raises? ==> r.error == ValueError
    ensures WindowAt(lines, i, r)
    ensures r.Matched? ==> r.consumed == lines[i..i + 1] && r.response == respond(count.value, LocaleAtoi(count.value).value)
  {
    match count
    case None => Declined
    case Some(c) =>
      var n := LocaleAtoi(c);
      if n.None? then Raises(ValueError)
      else if n.value == 0 then Declined
      else Matched(lines[i..i + 1], respond(c, n.value))
  }
}
