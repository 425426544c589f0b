/** The rules of helpers/make.py. Each looks at the first line of `make`'s
    output only, and consumes that line alone. */
module MakeRules {
  import opened Text

  const NoRule := "make: *** No rule to make target '"
  const NoTargets := "make: *** No targets specified and no makefile found"
  const NothingFor := "make: Nothing to be done for "
  const UpToDate := "make: '"

  const MeantCaesar := "Did you mean to type `make caesar`?"
  const SpelledCaesar := "Is your C file correctly spelled as `caesar.c`?"
  const NoFileCalled := "Do you actually have a file called `{}.c` in the current directory?"
  const NoTargetCalled := "If using a Makefile, are you sure you have a target called `{}`?"
  const NoMakefile := "You don't seem to have a `Makefile`?"
  const JustMake := "Or did you mean to execute, say, `make foo` instead of just `make`, whereby `foo.c` contains a program"
    + " you'd like to compile?"
  const CompileWithout := "Try compiling your program with `make {}` rather than `make {}.c`."
  const Compiles := "Looks like your program compiles successfully!"
  const NoChanges := "Looks like you already compiled `{}` and haven't made any changes to `{}.c` since."
  const ForgotSave := "Or did you forget to save `{}.c` before running `make`?"

  /** The misspellings of `caesar` the rule recognises. */
  const Misspellings := ["ceasar", "ceaser", "cesar", "caesaer"]

  /** The largest position from `k` down to 1 that satisfies `p`: where a
      greedy group `(.+)` ends when the engine backtracks from the end. */
  function LastWhere(k: int, p: nat -> bool): (r: Option<nat>)
    ensures r.Some? ==> 1 <= r.value <= k && p(r.value)
    ensures r.Some? ==> forall j :: r.value < j <= k ==> !p(j)
    ensures r.None? ==> forall j :: 1 <= j <= k ==> !p(j)
    decreases k
  {
    if k < 1 then None
    else if p(k) then Some(k)
    else LastWhere(k - 1, p)
  }

  /** The first line, or IndexError on no output. */
  function OnFirstLine(lines: seq<string>, answer: string -> Option<seq<string>>): (r: Outcome)
    ensures r.Raises? <==> lines == []
    ensures r.Matched? <==> lines != [] && answer(lines[0]).Some?
    ensures r.Matched? ==> r.consumed == lines[..1] && r.response == answer(lines[0]).value
  {
    if lines == [] then Raises(IndexError)
    else match answer(lines[0])
      case None => Declined
      case Some(response) => Matched(lines[..1], response)
  }

  // ---------------------------------------------------------------------
  // no_rule_to_make

  /** `'.  Stop.` after the target, where each `.` is any character. */
  predicate StopAt(s: string, k: nat)
  {
    k + 9 <= |s| && s[k] == '\'' && s[k + 2..k + 8] == "  Stop"
  }

  /** `^make: \*\*\* No rule to make target '(.+)'.  Stop.`: the target. */
  function NoRuleTarget(line: string): (r: Option<string>)
    ensures r.Some? ==> r.value != [] && StartsWith(line, NoRule + r.value) && StopAt(line[|NoRule|..], |r.value|)
    ensures r.Some? ==> forall k: nat :: |r.value| < k ==> !StopAt(line[|NoRule|..], k)
    ensures r.None? <==> !StartsWith(line, NoRule) || forall k: nat :: 1 <= k ==> !StopAt(line[|NoRule|..], k)
  {
    if !StartsWith(line, NoRule) then None
    else
      var s := line[|NoRule|..];
      var ends := (k: nat) => StopAt(s, k);
      assert forall k: nat :: ends(k) == StopAt(s, k);
      assert forall k: nat :: |s| - 9 < k ==> !StopAt(s, k);
      match LastWhere(|s| - 9, ends)
      case None => None
      case Some(k) =>
        assert line[..|NoRule| + k] == NoRule + s[..k];
        Some(s[..k])
  }

  /** `make` names the target it could not make, and the rule reads it back,
      whatever the target. */
  lemma NoRuleTargetSpelled(target: string)
    requires target != []
    ensures NoRuleTarget(NoRule + target + "'.  Stop.") == Some(target)
  {
    var line := NoRule + target + "'.  Stop.";
    var s := line[|NoRule|..];
    assert s == target + "'.  Stop.";
    assert StopAt(s, |target|);
  }

  function NoRuleResponse(line: string): Option<seq<string>>
  {
    match NoRuleTarget(line)
    case None => None
    case Some(target) =>
      if target in Misspellings then Some([MeantCaesar])
      else if target == "caesar" then Some([SpelledCaesar])
      else Some([Format(NoFileCalled, [target]), Format(NoTargetCalled, [target])])
  }

  /** `no_rule_to_make`: suggests `make caesar` for its misspellings, a
      spelling check of `caesar.c` for `caesar` itself, and otherwise asks
      whether the file or the Makefile target exists. */
  function NoRuleToMake(lines: seq<string>): (r: Outcome)
    ensures r.Raises? <==> lines == []
    ensures r.Matched? <==> lines != [] && NoRuleTarget(lines[0]).Some?
    ensures r.Matched? ==> r.consumed == lines[..1]
    ensures r.Matched? ==>
      var target := NoRuleTarget(lines[0]).value;
      && (target in Misspellings ==> r.response == [MeantCaesar])
      && (target == "caesar" ==> r.response == [SpelledCaesar])
      && (target !in Misspellings && target != "caesar" ==>
            r.response == [Format(NoFileCalled, [target]), Format(NoTargetCalled, [target])])
  {
    OnFirstLine(lines, NoRuleResponse)
  }

  /** Every misspelling of `caesar` gets the suggestion to type
      `make caesar`. */
  lemma MisspelledCaesar(target: string)
    requires target in Misspellings
    ensures NoRuleToMake([NoRule + target + "'.  Stop."]) == Matched([NoRule + target + "'.  Stop."], [MeantCaesar])
  {
    NoRuleTargetSpelled(target);
  }

  // ---------------------------------------------------------------------
  // no_target_specified

  /** `^make: \*\*\* No targets specified and no makefile found.  Stop`,
      where the `.` is any character. */
  predicate SaysNoTargets(line: string)
  {
    StartsWith(line, NoTargets) && |NoTargets| + 7 <= |line| && line[|NoTargets| + 1..|NoTargets| + 7] == "  Stop"
  }

  function NoTargetResponse(line: string): Option<seq<string>>
  {
    if SaysNoTargets(line) then Some([NoMakefile, JustMake]) else None
  }

  /** `no_target_specified`: `make` run without a target or a Makefile. */
  function NoTargetSpecified(lines: seq<string>): (r: Outcome)
    ensures r.Raises? <==> lines == []
    ensures r.Matched? <==> lines != [] && SaysNoTargets(lines[0])
    ensures r.Matched? ==> r.consumed == lines[..1] && r.response == [NoMakefile, JustMake]
  {
    OnFirstLine(lines, NoTargetResponse)
  }

  /** Whatever character stands where make prints the full stop, and
      whatever follows `Stop`, the message is recognised. */
  lemma NoTargetsAnyStop(c: char, rest: string)
    ensures NoTargetSpecified([NoTargets + [c] + "  Stop" + rest]).Matched?
  {
    var line := NoTargets + [c] + "  Stop" + rest;
    assert line[..|NoTargets|] == NoTargets;
    assert line[|NoTargets| + 1..|NoTargets| + 7] == "  Stop";
  }

  // ---------------------------------------------------------------------
  // nothing_to_be_done

  /** `.c'.` after the name, where each `.` is any character; the name is
      `[^']+`, so no quote comes before position `k`. */
  predicate SourceEndAt(s: string, k: nat)
  {
    k + 4 <= |s| && s[k + 1] == 'c' && s[k + 2] == '\'' && '\'' !in s[..k]
  }

  /** What follows the opening quote of `make: Nothing to be done for `. */
  function AfterQuote(line: string): string
    requires |line| > |NothingFor|
  {
    line[|NothingFor| + 1..]
  }

  /** ``^make: Nothing to be done for [`']([^']+).c'.``: the name of the
      program, without `.c`. */
  function NothingToBeDoneName(line: string): (r: Option<string>)
    ensures r.Some? ==> r.value != [] && '\'' !in r.value
    ensures r.Some? ==>
      && |line| > |NothingFor| && StartsWith(line, NothingFor)
      && (line[|NothingFor|] == '`' || line[|NothingFor|] == '\'')
      && SourceEndAt(AfterQuote(line), |r.value|) && AfterQuote(line)[..|r.value|] == r.value
    ensures r.Some? ==> forall k: nat :: |r.value| < k ==> !SourceEndAt(AfterQuote(line), k)
    ensures r.None? <==>
      || !StartsWith(line, NothingFor) || |line| == |NothingFor|
      || (line[|NothingFor|] != '`' && line[|NothingFor|] != '\'')
      || forall k: nat :: 1 <= k ==> !SourceEndAt(AfterQuote(line), k)
  {
    if !StartsWith(line, NothingFor) || |line| == |NothingFor| then None
    else if line[|NothingFor|] != '`' && line[|NothingFor|] != '\'' then None
    else
      var s := AfterQuote(line);
      var ends := (k: nat) => SourceEndAt(s, k);
      assert forall k: nat :: ends(k) == SourceEndAt(s, k);
      assert forall k: nat :: |s| - 4 < k ==> !SourceEndAt(s, k);
      match LastWhere(|s| - 4, ends)
      case None => None
      case Some(k) =>
        Some(s[..k])
  }

  /** `make foo.c` is answered with the name `foo`, for any name without a
      quote. */
  lemma NothingToBeDoneSpelled(name: string)
    requires name != [] && '\'' !in name
    ensures NothingToBeDoneName(NothingFor + "`" + name + ".c'.") == Some(name)
  {
    var line := NothingFor + "`" + name + ".c'.";
    var s := AfterQuote(line);
    assert s == name + ".c'.";
    assert SourceEndAt(s, |name|);
    assert s[..|name|] == name;
  }

  function NothingToBeDoneResponse(line: string): Option<seq<string>>
  {
    match NothingToBeDoneName(line)
    case None => None
    case Some(name) => Some([Format(CompileWithout, [name, name])])
  }

  /** `nothing_to_be_done`: `make foo.c` should have been `make foo`. */
  function NothingToBeDone(lines: seq<string>): (r: Outcome)
    ensures r.Raises? <==> lines == []
    ensures r.Matched? <==> lines != [] && NothingToBeDoneName(lines[0]).Some?
    ensures r.Matched? ==>
      var name := NothingToBeDoneName(lines[0]).value;
      r.consumed == lines[..1] && r.response == [Format(CompileWithout, [name, name])]
  {
    OnFirstLine(lines, NothingToBeDoneResponse)
  }

  // ---------------------------------------------------------------------
  // success

  /** `success`: a single line of output, a `clang` command, with no
      `error:` in it. */
  function Success(lines: seq<string>): (r: Outcome)
    ensures r.Raises? <==> lines == []
    ensures r.Matched? <==> |lines| == 1 && StartsWith(lines[0], "clang") && !Contains(lines[0], "error:")
    ensures r.Matched? ==> r.consumed == lines && r.response == [Compiles]
  {
    if lines == [] then Raises(IndexError)
    else if StartsWith(lines[0], "clang") && |lines| == 1 && !Contains(lines[0], "error:") then
      Matched(lines[0..1], [Compiles])
    else Declined
  }

  // ---------------------------------------------------------------------
  // up_to_date

  /** `' is up to date.` after the target, where the `.` is any
      character. */
  predicate UpToDateAt(s: string, k: nat)
  {
    k + 16 <= |s| && s[k..k + 15] == "' is up to date"
  }

  /** `^make: '(.+)' is up to date.`: the target. */
  function UpToDateTarget(line: string): (r: Option<string>)
    ensures r.Some? ==> r.value != [] && StartsWith(line, UpToDate + r.value) && UpToDateAt(line[|UpToDate|..], |r.value|)
    ensures r.Some? ==> forall k: nat :: |r.value| < k ==> !UpToDateAt(line[|UpToDate|..], k)
    ensures r.None? <==> !StartsWith(line, UpToDate) || forall k: nat :: 1 <= k ==> !UpToDateAt(line[|UpToDate|..], k)
  {
    if !StartsWith(line, UpToDate) then None
    else
      var s := line[|UpToDate|..];
      var ends := (k: nat) => UpToDateAt(s, k);
      assert forall k: nat :: ends(k) == UpToDateAt(s, k);
      assert forall k: nat :: |s| - 16 < k ==> !UpToDateAt(s, k);
      match LastWhere(|s| - 16, ends)
      case None => None
      case Some(k) =>
        assert line[..|UpToDate| + k] == UpToDate + s[..k];
        Some(s[..k])
  }

  /** `make` names the target that is up to date, and the rule reads it
      back, whatever the target. */
  lemma UpToDateSpelled(target: string)
    requires target != []
    ensures UpToDateTarget(UpToDate + target + "' is up to date.") == Some(target)
  {
    var line := UpToDate + target + "' is up to date.";
    var s := line[|UpToDate|..];
    assert s == target + "' is up to date.";
    assert UpToDateAt(s, |target|);
  }

  function UpToDateResponse(line: string): Option<seq<string>>
  {
    match UpToDateTarget(line)
    case None => None
    case Some(target) => Some([Format(NoChanges, [target, target]), Format(ForgotSave, [target])])
  }

  /** `up_to_date`: nothing changed since the last build, or the file was
      not saved. */
  function UpToDateRule(lines: seq<string>): (r: Outcome)
    ensures r.Raises? <==> lines == []
    ensures r.Matched? <==> lines != [] && UpToDateTarget(lines[0]).Some?
    ensures r.Matched? ==>
      var target := UpToDateTarget(lines[0]).value;
      r.consumed == lines[..1] && r.response == [Format(NoChanges, [target, target]), Format(ForgotSave, [target])]
  {
    OnFirstLine(lines, UpToDateResponse)
  }
}
