/** The clang rules of helpers/clang.py from `array_bounds` to
    `declaration_shadows_local_var`, in source order. Each takes the
    remaining output lines and declines, matches a prefix of them with its
    hints, or raises as the Python does. Response texts are the source's
    format templates, filled in with `Format`. */
module ClangRulesA {
  import opened Text
  import opened ClangMatch
  import opened ClangMarkers
  import opened ClangPatterns

  const BoundsNamed := "Careful, on line {} of `{}`, it looks like you're trying to access location {} of `{}`, which doesn't"
    + " exist; `{}` isn't that long."
  const BoundsUnnamed := "Careful, on line {} of `{}`, it looks like you're trying to access location {} of an array,"
    + " which doesn't exist; the array isn't that long."
  const ZeroIndexed := "Keep in mind that arrays are 0-indexed."

  /** `array_bounds`: names the array when a caret under the next line
      points at it, and then consumes that line and the caret line too. */
  function ArrayBounds(lines: seq<string>): (r: Outcome)
    ensures Gated(lines, ArrayIndexPast, false, r)
    ensures r.Matched? ==>
      var m := Match(ArrayIndexPast, lines[0], false).value;
      var arrayName := CaretExtract(Window(lines, 1, 3), true);
      && ConsumesPrefix(lines, r, if arrayName.Some? then 3 else 1)
      && |r.response| == 2 && r.response[1] == ZeroIndexed
      && r.response[0] == if arrayName.Some?
           then Format(BoundsNamed, [Show(m.line), Show(m.file), Group(m, 0), arrayName.value, arrayName.value])
           else Format(BoundsUnnamed, [Show(m.line), Show(m.file), Group(m, 0)])
  {
    if lines == [] then Raises(IndexError)
    else
      match Match(ArrayIndexPast, lines[0], false)
      case None => Declined
      case Some(m) =>
        var arrayName := CaretExtract(Window(lines, 1, 3), true);
        var first :=
          if arrayName.Some? then
            Format(BoundsNamed, [Show(m.line), Show(m.file), Group(m, 0), arrayName.value, arrayName.value])
          else
            Format(BoundsUnnamed, [Show(m.line), Show(m.file), Group(m, 0)]);
        var response := [first, ZeroIndexed];
        if arrayName.Some? then Matched(Take(lines, 3), response) else Matched(Take(lines, 1), response)
  }

  /** `index[0] == index[-1] == '"'` */
  predicate QuotedString(index: string)
  {
    index != [] && index[0] == index[|index| - 1] && index[|index| - 1] == '"'
  }

  const SubscriptNamed := "Looks like you're trying to access an element of the array `{}` on line {} of `{}`, but your index (`{}`)"
    + " is not of type `int`."
  const SubscriptString := "Right now, your index is of type `string` instead."
  const SubscriptUnnamed := "Looks like you're trying to access an element of an array on line {} of `{}`, but your index"
    + " is not of type `int`."
  const SubscriptHint := "Make sure your index (the value between square brackets) is an `int`."

  /** `[.*]` searched in a line: a literal `.` or `*` anywhere in it. */
  predicate HasDotOrStar(line: string)
  {
    '.' in line || '*' in line
  }

  /** `array_subscript`: names the array and the index when a caret and a
      run of tildes mark them, and says so when the index is a string
      literal. */
  function ArraySubscript(lines: seq<string>): (r: Outcome)
    ensures Gated(lines, ArraySubscriptNotInt, false, r)
    ensures r.Matched? ==> ConsumesPrefix(lines, r, if |lines| >= 2 && HasDotOrStar(lines[1]) then 2 else 1)
    ensures r.Matched? ==>
      var m := Match(ArraySubscriptNotInt, lines[0], false).value;
      var arrayName := CaretExtract(Window(lines, 1, 3), false);
      var index := UnderTildes(Window(lines, 1, 3));
      && (|r.response| == 3 <==> arrayName.Some? && index.Some? && QuotedString(index.value))
      && 2 <= |r.response| <= 3
      && (|r.response| == 3 ==> r.response[1] == SubscriptString)
      && r.response[|r.response| - 1] == SubscriptHint
      && r.response[0] == if arrayName.Some? && index.Some?
           then Format(SubscriptNamed, [arrayName.value, Show(m.line), Show(m.file), index.value])
           else Format(SubscriptUnnamed, [Show(m.line), Show(m.file)])
  {
    if lines == [] then Raises(IndexError)
    else
      match Match(ArraySubscriptNotInt, lines[0], false)
      case None => Declined
      case Some(m) =>
        var arrayName := CaretExtract(Window(lines, 1, 3), false);
        var index := UnderTildes(Window(lines, 1, 3));
        var opening :=
          if arrayName.Some? && index.Some? then
            [Format(SubscriptNamed, [arrayName.value, Show(m.line), Show(m.file), index.value])]
            + (if QuotedString(index.value) then [SubscriptString] else [])
          else [Format(SubscriptUnnamed, [Show(m.line), Show(m.file)])];
        var response := opening + [SubscriptHint];
        if |lines| >= 2 && HasDotOrStar(lines[1]) then Matched(Take(lines, 2), response)
        else Matched(Take(lines, 1), response)
  }

  const DoubleEquals := "When checking for equality in the condition on line {} of `{}`, try using a double equals sign (`==`) instead "
    + "of a single equals sign (`=`)."

  /** `assignment_as_condition`: consumes the source line too when it
      holds an `if (`. */
  function AssignmentAsCondition(lines: seq<string>): (r: Outcome)
    ensures Gated(lines, ClangPatterns.AssignmentAsCondition, false, r)
    ensures r.Matched? ==> ConsumesPrefix(lines, r, if |lines| >= 2 && HasKeywordParen(lines[1], "if") then 2 else 1)
    ensures r.Matched? ==>
      var m := Match(ClangPatterns.AssignmentAsCondition, lines[0], false).value;
      r.response == [Format(DoubleEquals, [Show(m.line), Show(m.file)])]
  {
    if lines == [] then Raises(IndexError)
    else
      match Match(ClangPatterns.AssignmentAsCondition, lines[0], false)
      case None => Declined
      case Some(m) =>
        var response := [Format(DoubleEquals, [Show(m.line), Show(m.file)])];
        if |lines| >= 2 && HasKeywordParen(lines[1], "if") then Matched(Take(lines, 2), response)
        else Matched(Take(lines, 1), response)
  }

  const HashDefine := "If trying to define a constant on line {} of `{}`, be sure to use `#define` rather than"
    + " just `define`."

  /** `bad_define`: a `define` that clang took for a type name. */
  function BadDefine(lines: seq<string>): (r: Outcome)
    ensures Gated(lines, UnknownTypeDefine, false, r)
    ensures r.Matched? ==>
      var m := Match(UnknownTypeDefine, lines[0], false).value;
      && ConsumesPrefix(lines, r, if |lines| >= 3 then 3 else 1)
      && r.response == [Format(HashDefine, [Show(m.line), Show(m.file)])]
  {
    if lines == [] then Raises(IndexError)
    else
      match Match(UnknownTypeDefine, lines[0], false)
      case None => Declined
      case Some(m) =>
        Matched(Take(lines, if |lines| >= 3 then 3 else 1), [Format(HashDefine, [Show(m.line), Show(m.file)])])
  }

  const HashInclude := "If trying to include a header file on line {} of `{}`, be sure to use `#include` rather than"
    + " just `include`."

  /** `bad_include`: an `include` that clang took for a type name. */
  function BadInclude(lines: seq<string>): (r: Outcome)
    ensures Gated(lines, UnknownTypeInclude, false, r)
    ensures r.Matched? ==>
      var m := Match(UnknownTypeInclude, lines[0], false).value;
      && ConsumesPrefix(lines, r, if |lines| >= 3 then 3 else 1)
      && r.response == [Format(HashInclude, [Show(m.line), Show(m.file)])]
  {
    if lines == [] then Raises(IndexError)
    else
      match Match(UnknownTypeInclude, lines[0], false)
      case None => Declined
      case Some(m) =>
        Matched(Take(lines, if |lines| >= 3 then 3 else 1), [Format(HashInclude, [Show(m.line), Show(m.file)])])
  }

  const CompareStrings := "You seem to be trying to compare two strings on line {} of `{}`"
  const StringComparisonHints: seq<string> := [
    "You can't compare two strings the same way you would compare two numbers (with `<`, `>`, etc.).",
    "Did you mean to compare two characters instead? If so, try using single quotation marks around characters "
    + "instead of double quotation marks.",
    "If you need to compare two strings, try using the `strcmp` function declared in `string.h`."]

  /** `comp_str_literal_unspecified`: consumes the source and caret lines
      when the third line is a caret line. */
  function CompStrLiteralUnspecified(lines: seq<string>): (r: Outcome)
    ensures Gated(lines, CompStrLiteral, false, r)
    ensures r.Matched? ==>
      var m := Match(CompStrLiteral, lines[0], false).value;
      && ConsumesPrefix(lines, r, if |lines| >= 3 && HasCaret(lines[2]) then 3 else 1)
      && r.response == [Format(CompareStrings, [Show(m.line), Show(m.file)])] + StringComparisonHints
  {
    if lines == [] then Raises(IndexError)
    else
      match Match(CompStrLiteral, lines[0], false)
      case None => Declined
      case Some(m) =>
        var response := [Format(CompareStrings, [Show(m.line), Show(m.file)])] + StringComparisonHints;
        if |lines| >= 3 && HasCaret(lines[2]) then Matched(Take(lines, 3), response)
        else Matched(Take(lines, 1), response)
  }

  const Redeclaring := "Looks like you're redeclaring the function `{}`, but with a different return type on"
    + " line {} of `{}`."
  const DeclaredOnLine := "You had already declared this function on line {}."
  const DeclaredInLibrary := "The function `{}` is already declared in the library {}. Try renaming your"
    + " function."

  /** The "previous declaration" note a rule looks for as the fourth line. */
  function PreviousDeclaration(lines: seq<string>): Option<(string, string)>
  {
    if |lines| >= 4 then NoteLine(lines[3], "previous declaration is here") else None
  }

  /** `conflicting_types`: with a "previous declaration" note as the fourth
      line, it says on which line the function was declared before when
      that was the same file, and otherwise in which library. */
  function ConflictingTypes(lines: seq<string>): (r: Outcome)
    ensures Gated(lines, ConflictingTypesFor, false, r)
    ensures r.Matched? ==>
      var m := Match(ConflictingTypesFor, lines[0], false).value;
      var note := PreviousDeclaration(lines);
      && ConsumesPrefix(lines, r, if note.Some? then 4 else 1)
      && |r.response| == (if note.Some? then 2 else 1)
      && r.response[0] == Format(Redeclaring, [Group(m, 0), Show(m.line), Show(m.file)])
      && (note.Some? ==> r.response[1] == if Show(m.file) == note.value.0
            then Format(DeclaredOnLine, [note.value.1])
            else Format(DeclaredInLibrary, [Group(m, 0), LastComponent(note.value.0)]))
  {
    if lines == [] then Raises(IndexError)
    else
      match Match(ConflictingTypesFor, lines[0], false)
      case None => Declined
      case Some(m) =>
        var response := [Format(Redeclaring, [Group(m, 0), Show(m.line), Show(m.file)])];
        var note := PreviousDeclaration(lines);
        if note.None? then Matched(Take(lines, 1), response)
        else
          var more :=
            if Show(m.file) == note.value.0 then Format(DeclaredOnLine, [note.value.1])
            else Format(DeclaredInLibrary, [Group(m, 0), LastComponent(note.value.0)]);
          Matched(Take(lines, 4), response + [more])
  }

  const ContinueOutside := "Looks like you're trying to use `continue` on line {} of `{}`, which isn't inside of a loop, but that keyword"
    + " can only be used inside of a loop."

  /** `continue_not_in_loop` */
  function ContinueNotInLoop(lines: seq<string>): (r: Outcome)
    ensures Gated(lines, ClangPatterns.ContinueNotInLoop, false, r)
    ensures r.Matched? ==>
      var m := Match(ClangPatterns.ContinueNotInLoop, lines[0], false).value;
      && ConsumesPrefix(lines, r, 1)
      && r.response == [Format(ContinueOutside, [Show(m.line), Show(m.file)])]
  {
    if lines == [] then Raises(IndexError)
    else
      match Match(ClangPatterns.ContinueNotInLoop, lines[0], false)
      case None => Declined
      case Some(m) => Matched(Take(lines, 1), [Format(ContinueOutside, [Show(m.line), Show(m.file)])])
  }

  const AlwaysReturn := "Ensure that your function will always return a value. If your function is not meant to return a value,"
    + " try changing its return type to `void`."

  /** `control_reaches_non_void`: the one response that names no place. */
  function ControlReachesNonVoid(lines: seq<string>): (r: Outcome)
    ensures Gated(lines, ControlReaches, false, r)
    ensures r.Matched? ==> ConsumesPrefix(lines, r, 1) && r.response == [AlwaysReturn]
  {
    if lines == [] then Raises(IndexError)
    else
      match Match(ControlReaches, lines[0], false)
      case None => Declined
      case Some(_) => Matched(Take(lines, 1), [AlwaysReturn])
  }

  const Shadows := "On line {} of `{}`, it looks like you're trying to declare a variable that's already been declared "
    + "elsewhere."
  const CommaForLoop := "If you meant to create a `for` loop, be sure that each part of the `for` loop is separated "
    + "with a semicolon rather than a comma."
  const OmitStart := "If you meant to use the variable you've already declared previously"
  const OmitWhere := " (on line {} of `{}`)"
  const OmitEnd := ", try getting rid of the data type of the variable on line {} of `{}`. You only need "
    + "to include the data type when you first declare a variable."
  const RenameVariable := "Otherwise, if you did mean to declare a new variable, try changing its name to a name that "
    + "hasn't been used yet."

  /** How many lines `declaration_shadows_local_var` consumes when the line
      after the header is not a `for` header, as written: with a note as
      the fourth line and a lone caret as the sixth, `lines[0:7]`, one line
      past the note's own caret line. */
  function ShadowsExtentAsWritten(lines: seq<string>): nat
  {
    if PreviousDeclaration(lines).Some? then
      (if |lines| >= 6 && AloneAfterSpace(lines[5], '^') then 7 else 4)
    else if |lines| >= 2 then 2 else 1
  }

  /** The same, ending at the note's caret line (`lines[0:6]`). */
  function ShadowsExtent(lines: seq<string>): nat
  {
    if PreviousDeclaration(lines).Some? then
      (if |lines| >= 6 && AloneAfterSpace(lines[5], '^') then 6 else 4)
    else if |lines| >= 2 then 2 else 1
  }

  /** `declaration_shadows_local_var`: a `for` header on the next line
      means commas were used for semicolons; otherwise the response quotes
      the "previous declaration" note found as the fourth line. The number
      of lines consumed in that case is the corrected `ShadowsExtent`. */
  function DeclarationShadowsLocalVar(lines: seq<string>): (r: Outcome)
    ensures Gated(lines, DeclarationShadows, false, r)
    ensures r.Matched? ==>
      var m := Match(DeclarationShadows, lines[0], false).value;
      |r.response| >= 2 && r.response[0] == Format(Shadows, [Show(m.line), Show(m.file)])
    ensures r.Matched? && |lines| >= 2 && StartsForLoop(lines[1]) ==>
      && ConsumesPrefix(lines, r, if |lines| >= 3 && AloneAfterSpace(lines[2], '^') then 3 else 2)
      && r.response[1..] == [CommaForLoop]
    ensures r.Matched? && !(|lines| >= 2 && StartsForLoop(lines[1])) ==>
      var m := Match(DeclarationShadows, lines[0], false).value;
      var note := PreviousDeclaration(lines);
      && ConsumesPrefix(lines, r, ShadowsExtent(lines))
      && r.response[1..] == [
           OmitStart + (if note.Some? then Format(OmitWhere, [note.value.1, note.value.0]) else "")
           + Format(OmitEnd, [Show(m.line), Show(m.file)]),
           RenameVariable]
  {
    if lines == [] then Raises(IndexError)
    else
      match Match(DeclarationShadows, lines[0], false)
      case None => Declined
      case Some(m) =>
        var first := Format(Shadows, [Show(m.line), Show(m.file)]);
        if |lines| >= 2 && StartsForLoop(lines[1]) then
          Matched(Take(lines, if |lines| >= 3 && AloneAfterSpace(lines[2], '^') then 3 else 2), [first, CommaForLoop])
        else
          var note := PreviousDeclaration(lines);
          var omit := OmitStart + (if note.Some? then Format(OmitWhere, [note.value.1, note.value.0]) else "")
            + Format(OmitEnd, [Show(m.line), Show(m.file)]);
          Matched(Take(lines, ShadowsExtent(lines)), [first, omit, RenameVariable])
  }

  /** `declaration_shadows_local_var` as written: with a note and its caret
      line it consumes `lines[0:7]`, one line past the note's caret line. */
  function DeclarationShadowsLocalVarAsWritten(lines: seq<string>): (r: Outcome)
    ensures Gated(lines, DeclarationShadows, false, r)
    ensures r.Matched? && !(|lines| >= 2 && StartsForLoop(lines[1])) ==>
      ConsumesPrefix(lines, r, Min(ShadowsExtentAsWritten(lines), |lines|))
  {
    if lines == [] then Raises(IndexError)
    else
      match Match(DeclarationShadows, lines[0], false)
      case None => Declined
      case Some(m) =>
        var first := Format(Shadows, [Show(m.line), Show(m.file)]);
        if |lines| >= 2 && StartsForLoop(lines[1]) then
          Matched(Take(lines, if |lines| >= 3 && AloneAfterSpace(lines[2], '^') then 3 else 2), [first, CommaForLoop])
        else
          var note := PreviousDeclaration(lines);
          var omit := OmitStart + (if note.Some? then Format(OmitWhere, [note.value.1, note.value.0]) else "")
            + Format(OmitEnd, [Show(m.line), Show(m.file)]);
          Matched(Take(lines, ShadowsExtentAsWritten(lines)), [first, omit, RenameVariable])
  }

  /** When the note's caret line is followed by more output, the rule as
      written also consumes the line after it, which belongs to the next
      diagnostic; the corrected rule stops at the caret line. */
  lemma ShadowsOverreach(lines: seq<string>)
    requires |lines| >= 7 && DeclarationShadowsLocalVar(lines).Matched? && !StartsForLoop(lines[1])
    requires PreviousDeclaration(lines).Some? && AloneAfterSpace(lines[5], '^')
    ensures DeclarationShadowsLocalVarAsWritten(lines).consumed == lines[..7]
    ensures DeclarationShadowsLocalVar(lines).consumed == lines[..6]
  {
  }

  /** The corrected rule never consumes a line past the diagnostic and its
      note: with the note's caret line it stops there, and otherwise it
      takes at most the header, the source line, the caret line and the
      note. */
  lemma ShadowsStaysInDiagnostic(lines: seq<string>)
    requires DeclarationShadowsLocalVar(lines).Matched?
    ensures |DeclarationShadowsLocalVar(lines).consumed| <= 6
    ensures |DeclarationShadowsLocalVar(lines).consumed| == 6 ==>
      PreviousDeclaration(lines).Some? && AloneAfterSpace(lines[5], '^')
  {
  }
}
