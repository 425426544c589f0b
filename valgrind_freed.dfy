/** `all_heap_blocks_freed` of helpers/valgrind.py: a clean run. */
module ValgrindFreed {
  import opened Text
  import opened ValgrindFrames
  import opened ValgrindScan

  const AllFreed: seq<Token> := [Lit(" All heap blocks were freed -- no leaks are possible")]
  const NoErrors: seq<Token> := [Lit(" ERROR SUMMARY: 0 errors from 0 contexts")]

  const NoMemoryErrors := "Looks like your program doesn't have any memory-related errors!"
  const OtherInputs := "Be sure, though, to test it with other inputs!"

  predicate HeapFreed(line: string) { Says(line, AllFreed, true).Some? }

  predicate NoErrorSummary(line: string) { Says(line, NoErrors, false).Some? }

  /** The answer that quotes the two lines and elides what lies between. */
  function Freed(heap: string, summary: string): (r: Outcome)
    ensures r.Matched? && r.consumed == [heap, "...", summary]
  {
    Matched([heap, "...", summary], [NoMemoryErrors, OtherInputs])
  }

  /** The nested loops of `all_heap_blocks_freed` from line `i` on, for any
      pair of line tests: the first line `a` passing `first` that some later
      line passes `second`, with the first such later line `b`. */
  function PairFrom(lines: seq<string>, first: string -> bool, second: string -> bool, i: nat): (r: Option<(nat, nat)>)
    ensures r.Some? ==> i <= r.value.0 < r.value.1 < |lines|
    ensures r.Some? ==> first(lines[r.value.0]) && second(lines[r.value.1])
    decreases |lines| - i
  {
    if i >= |lines| then None
    else if first(lines[i]) && FirstLine(lines, second, i + 1).Some? then Some((i, FirstLine(lines, second, i + 1).value))
    else PairFrom(lines, first, second, i + 1)
  }

  /** The outer loop of `all_heap_blocks_freed` from line `i` on. */
  function FreedFrom(lines: seq<string>, i: nat): (r: Outcome)
    ensures r.Declined? || r.Matched?
    ensures r.Matched? ==> |r.consumed| == 3 && r.consumed[1] == "..."
  {
    match PairFrom(lines, HeapFreed, NoErrorSummary, i)
    case None => Declined
    case Some((a, b)) => Freed(lines[a], lines[b])
  }

  function AllHeapBlocksFreedSpec(lines: seq<string>): (r: Outcome)
    ensures BannerGated(lines, r)
    ensures r.Raises? ==> lines == []
  {
    if lines == [] then Raises(IndexError)
    else if !IsBanner(lines[0]) then Declined
    else FreedFrom(lines, 0)
  }

  /** The two loops: each line passing `first` is tried against every later
      line until one passes `second`. */
  method FindPair(lines: seq<string>, first: string -> bool, second: string -> bool) returns (r: Option<(nat, nat)>)
    ensures r == PairFrom(lines, first, second, 0)
  {
    var i := 0;
    while i < |lines|
      invariant i <= |lines| && PairFrom(lines, first, second, i) == PairFrom(lines, first, second, 0)
    {
      if first(lines[i]) {
        var j := i + 1;
        while j < |lines|
          invariant i + 1 <= j <= |lines|
          invariant FirstLine(lines, second, j) == FirstLine(lines, second, i + 1)
        {
          if second(lines[j]) {
            return Some((i, j));
          }
          j := j + 1;
        }
      }
      i := i + 1;
    }
    return None;
  }

  /** `all_heap_blocks_freed`: the "no leaks are possible" line, elided
      context, and the first clean error summary after it. */
  method AllHeapBlocksFreed(lines: seq<string>) returns (r: Outcome)
    ensures r == AllHeapBlocksFreedSpec(lines)
  {
    if lines == [] {
      return Raises(IndexError);
    }
    if !IsBanner(lines[0]) {
      return Declined;
    }
    var pair := FindPair(lines, HeapFreed, NoErrorSummary);
    if pair.None? {
      return Declined;
    }
    return Freed(lines[pair.value.0], lines[pair.value.1]);
  }

  /** A pair exists exactly when some line passing `first` is followed,
      later, by a line passing `second`, and the pair then starts at the
      first line passing `first`. */
  lemma {:induction false} PairFromFinds(lines: seq<string>, first: string -> bool, second: string -> bool, i: nat)
    ensures PairFrom(lines, first, second, i).Some? <==>
      exists a, b :: i <= a < b < |lines| && first(lines[a]) && second(lines[b])
    ensures PairFrom(lines, first, second, i).Some? ==>
      FirstLine(lines, first, i) == Some(PairFrom(lines, first, second, i).value.0)
    decreases |lines| - i
  {
    if i < |lines| {
      PairFromFinds(lines, first, second, i + 1);
      if first(lines[i]) && FirstLine(lines, second, i + 1).Some? {
        var b := FirstLine(lines, second, i + 1).value;
        assert first(lines[i]) && second(lines[b]);
      } else if first(lines[i]) {
        forall a, b | i <= a < b < |lines| && first(lines[a])
          ensures !second(lines[b])
        {
        }
      } else {
        if exists a, b :: i <= a < b < |lines| && first(lines[a]) && second(lines[b]) {
          var a, b :| i <= a < b < |lines| && first(lines[a]) && second(lines[b]);
          assert a != i;
        }
      }
    }
  }

  /** The rule answers exactly when some "no leaks are possible" line is
      followed, later, by a clean error summary, and it then quotes the
      first "no leaks are possible" line. */
  lemma FreedFromAnswers(lines: seq<string>, i: nat)
    ensures FreedFrom(lines, i).Matched? <==>
      exists a, b :: i <= a < b < |lines| && HeapFreed(lines[a]) && NoErrorSummary(lines[b])
    ensures FreedFrom(lines, i).Matched? ==>
      FirstLine(lines, HeapFreed, i).Some? && FreedFrom(lines, i).consumed[0] == lines[FirstLine(lines, HeapFreed, i).value]
  {
    PairFromFinds(lines, HeapFreed, NoErrorSummary, i);
  }
}
