/** `bytes_definitely_lost` and `definitely_lost` of helpers/valgrind.py:
    memory that was never freed. */
module ValgrindLeaks {
  import opened Text
  import opened ValgrindFrames
  import opened ValgrindScan
  import opened ValgrindRerun

  const LostDirect: seq<Token> := [
    Lit(" "), Count, Lit(" ("), Count, Lit(" direct, "), Count, Lit(" indirect) bytes in "), Count,
    Lit(" blocks are definitely lost in loss record "), Count, Lit(" of "), Count]
  const LostPlain: seq<Token> := [
    Lit(" "), Count, Lit(" bytes in "), Count,
    Lit(" blocks are definitely lost in loss record "), Count, Lit(" of "), Count]
  const LostSummary: seq<Token> := [Lit("    definitely lost: "), Count, Lit(" bytes in "), Count, Lit(" blocks")]

  const Leaked := "Looks like your program leaked {} {} of memory."
  const ForgotFree := "Did you forget to `free` memory that you allocated via `malloc`?"

  // ---------------------------------------------------------------------
  // bytes_definitely_lost

  /** The first group of a loss record, with or without its direct and
      indirect parts. */
  function LostCount(line: string): (r: Option<string>)
    ensures r.Some? ==> IsCount(r.value)
  {
    match FirstCount(line, LostDirect)
    case Some(c) => Some(c)
    case None => FirstCount(line, LostPlain)
  }

  predicate LossRecord(line: string) { LostCount(line).Some? }

  /** The leak report for a count: its first two lines. */
  function LeakLines(count: string, n: nat): seq<string>
  {
    [Format(Leaked, [count, Unit(n)]), ForgotFree]
  }

  /** What `bytes_definitely_lost` makes of line `i`. */
  function LostAnswer(lines: seq<string>, i: nat): (r: Outcome)
    ensures i < |lines| && LossRecord(lines[i]) ==> !r.Declined? && WindowAt(lines, i, r)
    ensures r.Raises? ==> r.error == ValueError
  {
    if i >= |lines| then Declined
    else CountedReport(lines, i, LostCount(lines[i]), LeakLines)
  }

  function BytesDefinitelyLostSpec(lines: seq<string>): (r: Outcome)
    ensures BannerGated(lines, r) && AnswersFirst(lines, LossRecord, r)
    ensures r.Raises? && lines != [] ==> r.error == ValueError
  {
    ScanAnswersFirst(lines, LossRecord, LostAnswer);
    Scan(lines, LossRecord, LostAnswer)
  }

  /** `bytes_definitely_lost`: the first loss record, how much leaked, and
      where. */
  method BytesDefinitelyLost(lines: seq<string>) returns (r: Outcome)
    ensures r == BytesDefinitelyLostSpec(lines)
  {
    if lines == [] {
      return Raises(IndexError);
    }
    if !IsBanner(lines[0]) {
      return Declined;
    }
    var i := 0;
    while i < |lines|
      invariant i <= |lines| && FirstLine(lines, LossRecord, i) == FirstLine(lines, LossRecord, 0)
    {
      var count := LostCount(lines[i]);
      if count.Some? {
        var n := LocaleAtoi(count.value);
        if n.None? {
          return Raises(ValueError);
        }
        r := ReportAt(lines, i, LeakLines(count.value, n.value));
        return;
      }
      i := i + 1;
    }
    return Declined;
  }

  // ---------------------------------------------------------------------
  // definitely_lost

  /** A `definitely lost:` summary line whose count is not zero; a count
      that `locale.atoi` rejects also stops the scan, by raising. */
  predicate NonZeroLoss(line: string)
  {
    var count := FirstCount(line, LostSummary);
    count.Some? && LocaleAtoi(count.value) != Some(0)
  }

  /** What `definitely_lost` makes of line `i`, before the advice to rerun
      is added. */
  function LeakAnswer(lines: seq<string>, i: nat): (r: Outcome)
    ensures i < |lines| && NonZeroLoss(lines[i]) ==> !r.Declined? && WindowAt(lines, i, r)
    ensures r.Matched? ==> |r.consumed| == 1
    ensures r.Raises? ==> r.error == ValueError
  {
    if i >= |lines| then Declined
    else SummaryReport(lines, i, FirstCount(lines[i], LostSummary), LeakLines)
  }

  /** A match with `hint` appended to its response; anything else as is. */
  function Append(r: Outcome, hint: seq<string>): (s: Outcome)
    ensures s.Matched? <==> r.Matched?
    ensures !s.Matched? ==> s == r
    ensures s.Matched? ==> s.consumed == r.consumed && s.response == r.response + hint
  {
    if r.Matched? then Matched(r.consumed, r.response + hint) else r
  }

  function DefinitelyLostSpec(lines: seq<string>): (r: Outcome)
    ensures BannerGated(lines, r) && AnswersFirst(lines, NonZeroLoss, r)
    ensures r.Matched? ==> |r.consumed| == 1
    ensures r.Raises? && lines != [] ==> r.error == ValueError
  {
    ScanAnswersFirst(lines, NonZeroLoss, LeakAnswer);
    AppendAnswers(lines, NonZeroLoss, Scan(lines, NonZeroLoss, LeakAnswer), RerunHint(lines));
    Append(Scan(lines, NonZeroLoss, LeakAnswer), RerunHint(lines))
  }

  /** Appending to a match keeps what the scan promises about it. */
  lemma AppendAnswers(lines: seq<string>, p: string -> bool, r: Outcome, hint: seq<string>)
    requires BannerGated(lines, r) && AnswersFirst(lines, p, r)
    requires r.Matched? ==> |r.consumed| == 1
    ensures BannerGated(lines, Append(r, hint)) && AnswersFirst(lines, p, Append(r, hint))
    ensures Append(r, hint).Matched? ==> |Append(r, hint).consumed| == 1
  {
  }

  /** `definitely_lost`: the first leak summary with a non-zero count. */
  method DefinitelyLost(lines: seq<string>) returns (r: Outcome)
    ensures r == DefinitelyLostSpec(lines)
  {
    if lines == [] {
      return Raises(IndexError);
    }
    if !IsBanner(lines[0]) {
      return Declined;
    }
    var i := 0;
    while i < |lines|
      invariant i <= |lines| && FirstLine(lines, NonZeroLoss, i) == FirstLine(lines, NonZeroLoss, 0)
    {
      var count := FirstCount(lines[i], LostSummary);
      if count.Some? {
        var n := LocaleAtoi(count.value);
        if n.None? {
          assert FirstLine(lines, NonZeroLoss, i) == Some(i);
          LeakRaises(lines, i, count.value);
          return Raises(ValueError);
        }
        if n.value != 0 {
          assert FirstLine(lines, NonZeroLoss, i) == Some(i);
          LeakFound(lines, i, count.value, n.value);
          return Matched(lines[i..i + 1], LeakLines(count.value, n.value) + RerunHint(lines));
        }
      }
      i := i + 1;
    }
    return Declined;
  }

  /** The first summary line with a non-zero count is reported, with the
      advice to rerun appended. */
  lemma LeakFound(lines: seq<string>, i: nat, count: string, n: nat)
    requires lines != [] && IsBanner(lines[0]) && i < |lines| && FirstLine(lines, NonZeroLoss, 0) == Some(i)
    requires FirstCount(lines[i], LostSummary) == Some(count) && LocaleAtoi(count) == Some(n) && n != 0
    ensures DefinitelyLostSpec(lines) == Matched(lines[i..i + 1], LeakLines(count, n) + RerunHint(lines))
  {
    assert Scan(lines, NonZeroLoss, LeakAnswer) == LeakAnswer(lines, i);
  }

  /** A first summary line whose count has no digits raises ValueError. */
  lemma LeakRaises(lines: seq<string>, i: nat, count: string)
    requires lines != [] && IsBanner(lines[0]) && i < |lines| && FirstLine(lines, NonZeroLoss, 0) == Some(i)
    requires FirstCount(lines[i], LostSummary) == Some(count) && LocaleAtoi(count).None?
    ensures DefinitelyLostSpec(lines) == Raises(ValueError)
  {
    assert Scan(lines, NonZeroLoss, LeakAnswer) == LeakAnswer(lines, i);
  }
}
