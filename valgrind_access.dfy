/** `conditional_jump_depends`, `invalid_read`, `invalid_write` and
    `use_of_uninitialized_val` of helpers/valgrind.py: memory that is not
    the program's, or has no value yet. */
module ValgrindAccess {
  import opened Text
  import opened ValgrindFrames
  import opened ValgrindScan

  const ConditionalJump: seq<Token> := [Lit(" Conditional jump or move depends on uninitialised value(s)")]
  const InvalidReadOf: seq<Token> := [Lit(" Invalid read of size "), Count]
  const InvalidWriteOf: seq<Token> := [Lit(" Invalid write of size "), Count]
  const UninitialisedOf: seq<Token> := [Lit(" Use of uninitialised value of size "), Count]

  const MightNotHaveValue := "Looks like you're trying to use a variable that might not have a value?"
  const Access := "Looks like you're trying to access {} {} of memory that isn't yours?"
  const BeyondBounds := "Did you try to index into an array beyond its bounds?"
  const Modify := "Looks like you're trying to modify {} {} of memory that isn't yours?"
  const StoreBeyond := "Did you try to store something beyond the bounds of an array?"
  const SizedUninitialised := "Looks like you're trying to use a {}-byte variable that might not have a value?"

  // ---------------------------------------------------------------------
  // conditional_jump_depends

  predicate JumpsOnUninitialised(line: string) { Says(line, ConditionalJump, true).Some? }

  /** What `conditional_jump_depends` makes of line `i`: it points at the
      likely frame but consumes only the message line. */
  function JumpAnswer(lines: seq<string>, i: nat): (r: Outcome)
    ensures i < |lines| && JumpsOnUninitialised(lines[i]) ==> r.Matched? && r.consumed == [lines[i]]
    ensures i < |lines| && JumpsOnUninitialised(lines[i]) ==>
      r.response == [MightNotHaveValue] + FrameHints(Extract(lines[i + 1..]).1)
    ensures !r.Raises?
  {
    if i >= |lines| || !JumpsOnUninitialised(lines[i]) then Declined
    else Matched([lines[i]], [MightNotHaveValue] + FrameHints(Extract(lines[i + 1..]).1))
  }

  function ConditionalJumpDependsSpec(lines: seq<string>): (r: Outcome)
    ensures BannerGated(lines, r) && AnswersFirst(lines, JumpsOnUninitialised, r)
    ensures r.Matched? ==> |r.consumed| == 1
    ensures r.Raises? ==> lines == []
  {
    JumpAnswers(lines);
    ScanAnswersFirst(lines, JumpsOnUninitialised, JumpAnswer);
    Scan(lines, JumpsOnUninitialised, JumpAnswer)
  }

  /** Every line that jumps on an uninitialised value is answered, and the
      answer is that line alone. */
  lemma JumpAnswers(lines: seq<string>)
    ensures Answers(lines, JumpsOnUninitialised, JumpAnswer)
  {
    forall i | 0 <= i < |lines| && JumpsOnUninitialised(lines[i])
      ensures !JumpAnswer(lines, i).Declined? && WindowAt(lines, i, JumpAnswer(lines, i))
    {
      assert lines[i..i + 1] == [lines[i]];
    }
  }

  /** `conditional_jump_depends`: the first jump on an uninitialised value. */
  method ConditionalJumpDepends(lines: seq<string>) returns (r: Outcome)
    ensures r == ConditionalJumpDependsSpec(lines)
  {
    if lines == [] {
      return Raises(IndexError);
    }
    if !IsBanner(lines[0]) {
      return Declined;
    }
    var i := 0;
    while i < |lines|
      invariant i <= |lines| && FirstLine(lines, JumpsOnUninitialised, i) == FirstLine(lines, JumpsOnUninitialised, 0)
    {
      if Says(lines[i], ConditionalJump, true).Some? {
        var frames, frame := FrameExtract(lines[i + 1..]);
        return Matched([lines[i]], [MightNotHaveValue] + FrameHints(frame));
      }
      i := i + 1;
    }
    return Declined;
  }

  // ---------------------------------------------------------------------
  // invalid_read, invalid_write

  predicate ReadsInvalid(line: string) { FirstCount(line, InvalidReadOf).Some? }

  predicate WritesInvalid(line: string) { FirstCount(line, InvalidWriteOf).Some? }

  function AccessLines(size: string, n: nat): seq<string>
  {
    [Format(Access, [size, Unit(n)]), BeyondBounds]
  }

  function ModifyLines(size: string, n: nat): seq<string>
  {
    [Format(Modify, [size, Unit(n)]), StoreBeyond]
  }

  /** What `invalid_read` makes of line `i`. */
  function ReadAnswer(lines: seq<string>, i: nat): (r: Outcome)
    ensures i < |lines| && ReadsInvalid(lines[i]) ==> !r.Declined? && WindowAt(lines, i, r)
    ensures r.Raises? ==> r.error == ValueError
  {
    if i >= |lines| then Declined
    else CountedReport(lines, i, FirstCount(lines[i], InvalidReadOf), AccessLines)
  }

  function InvalidReadSpec(lines: seq<string>): (r: Outcome)
    ensures BannerGated(lines, r) && AnswersFirst(lines, ReadsInvalid, r)
    ensures r.Raises? && lines != [] ==> r.error == ValueError
  {
    ScanAnswersFirst(lines, ReadsInvalid, ReadAnswer);
    Scan(lines, ReadsInvalid, ReadAnswer)
  }

  /** `invalid_read`: how many bytes were read and where. */
  method InvalidRead(lines: seq<string>) returns (r: Outcome)
    ensures r == InvalidReadSpec(lines)
  {
    if lines == [] {
      return Raises(IndexError);
    }
    if !IsBanner(lines[0]) {
      return Declined;
    }
    var i := 0;
    while i < |lines|
      invariant i <= |lines| && FirstLine(lines, ReadsInvalid, i) == FirstLine(lines, ReadsInvalid, 0)
    {
      var size := FirstCount(lines[i], InvalidReadOf);
      if size.Some? {
        var n := LocaleAtoi(size.value);
        if n.None? {
          return Raises(ValueError);
        }
        r := ReportAt(lines, i, AccessLines(size.value, n.value));
        return;
      }
      i := i + 1;
    }
    return Declined;
  }

  /** What `invalid_write` makes of line `i`. */
  function WriteAnswer(lines: seq<string>, i: nat): (r: Outcome)
    ensures i < |lines| && WritesInvalid(lines[i]) ==> !r.Declined? && WindowAt(lines, i, r)
    ensures r.Raises? ==> r.error == ValueError
  {
    if i >= |lines| then Declined
    else CountedReport(lines, i, FirstCount(lines[i], InvalidWriteOf), ModifyLines)
  }

  function InvalidWriteSpec(lines: seq<string>): (r: Outcome)
    ensures BannerGated(lines, r) && AnswersFirst(lines, WritesInvalid, r)
    ensures r.Raises? && lines != [] ==> r.error == ValueError
  {
    ScanAnswersFirst(lines, WritesInvalid, WriteAnswer);
    Scan(lines, WritesInvalid, WriteAnswer)
  }

  /** `invalid_write`: how many bytes were written and where. */
  method InvalidWrite(lines: seq<string>) returns (r: Outcome)
    ensures r == InvalidWriteSpec(lines)
  {
    if lines == [] {
      return Raises(IndexError);
    }
    if !IsBanner(lines[0]) {
      return Declined;
    }
    var i := 0;
    while i < |lines|
      invariant i <= |lines| && FirstLine(lines, WritesInvalid, i) == FirstLine(lines, WritesInvalid, 0)
    {
      var size := FirstCount(lines[i], InvalidWriteOf);
      if size.Some? {
        var n := LocaleAtoi(size.value);
        if n.None? {
          return Raises(ValueError);
        }
        r := ReportAt(lines, i, ModifyLines(size.value, n.value));
        return;
      }
      i := i + 1;
    }
    return Declined;
  }

  // ---------------------------------------------------------------------
  // use_of_uninitialized_val

  predicate UsesUninitialised(line: string) { Says(line, UninitialisedOf, true).Some? }

  /** What `use_of_uninitialized_val` makes of line `i`: the size is quoted
      as printed, so nothing is parsed and nothing raises. */
  function UninitialisedAnswer(lines: seq<string>, i: nat): (r: Outcome)
    ensures i < |lines| && UsesUninitialised(lines[i]) ==> r.Matched? && WindowAt(lines, i, r)
    ensures !r.Raises?
  {
    if i >= |lines| then Declined
    else match Says(lines[i], UninitialisedOf, true)
      case None => Declined
      case Some(g) => Report(lines, i, [Format(SizedUninitialised, [g[0]])])
  }

  function UseOfUninitializedValSpec(lines: seq<string>): (r: Outcome)
    ensures BannerGated(lines, r) && AnswersFirst(lines, UsesUninitialised, r)
    ensures r.Raises? ==> lines == []
  {
    ScanAnswersFirst(lines, UsesUninitialised, UninitialisedAnswer);
    Scan(lines, UsesUninitialised, UninitialisedAnswer)
  }

  /** `use_of_uninitialized_val`: the size of the variable and where. */
  method UseOfUninitializedVal(lines: seq<string>) returns (r: Outcome)
    ensures r == UseOfUninitializedValSpec(lines)
  {
    if lines == [] {
      return Raises(IndexError);
    }
    if !IsBanner(lines[0]) {
      return Declined;
    }
    var i := 0;
    while i < |lines|
      invariant i <= |lines| && FirstLine(lines, UsesUninitialised, i) == FirstLine(lines, UsesUninitialised, 0)
    {
      var g := Says(lines[i], UninitialisedOf, true);
      if g.Some? {
        r := ReportAt(lines, i, [Format(SizedUninitialised, [g.value[0]])]);
        return;
      }
      i := i + 1;
    }
    return Declined;
  }
}
