/** The clang rules of helpers/clang.py from `div_by_zero` to
    `file_not_found_include`, in source order. */
module ClangRulesE {
  import opened Text
  import opened ClangMatch
  import opened ClangMarkers
  import opened ClangPatterns

  const DivideByZero := "Looks like you're trying to divide by `0` (which isn't defined mathematically) on line {} of"
    + " `{}`."

  /** `div_by_zero`: consumes the source line when there is one. */
  function DivByZero(lines: seq<string>): (r: Outcome)
    ensures Gated(lines, DivisionByZero, false, r)
    ensures r.Matched? ==>
      var m := Match(DivisionByZero, lines[0], false).value;
      && ConsumesPrefix(lines, r, if |lines| >= 2 then 2 else 1)
      && r.response == [Format(DivideByZero, [Show(m.line), Show(m.file)])]
  {
    if lines == [] then Raises(IndexError)
    else
      match Match(DivisionByZero, lines[0], false)
      case None => Declined
      case Some(m) =>
        Matched(Take(lines, if |lines| >= 2 then 2 else 1), [Format(DivideByZero, [Show(m.line), Show(m.file)])])
  }

  /** Printed as it stands: this response is not a format template. */
  const MatchBraces := "Make sure that all opening brace symbols `{` are matched with a closing brace `}`."

  /** `expected_closing_brace` */
  function ExpectedClosingBrace(lines: seq<string>): (r: Outcome)
    ensures Gated(lines, ExpectedBrace, false, r)
    ensures r.Matched? ==> ConsumesPrefix(lines, r, 1) && r.response == [MatchBraces]
  {
    if lines == [] then Raises(IndexError)
    else
      match Match(ExpectedBrace, lines[0], false)
      case None => Declined
      case Some(_) => Matched(Take(lines, 1), [MatchBraces])
  }

  const MatchParens := "Make sure that all opening parentheses `(` are matched with a closing parenthesis"
    + " `)` in `{}`."
  const MissingParen := "In particular, check to see if you are missing a closing parenthesis"
    + " on line {} of `{}`."

  /** The "to match this '('" note a rule looks for as the fourth line. */
  function OpeningParenNote(lines: seq<string>): Option<(string, string)>
  {
    if |lines| >= 4 then NoteLine(lines[3], "to match this '('") else None
  }

  /** `expected_closing_parens`: points at the line of the unmatched `(`
      when a note names it, and otherwise at the line of the error. */
  function ExpectedClosingParens(lines: seq<string>): (r: Outcome)
    ensures Gated(lines, ExpectedParen, false, r)
    ensures r.Matched? ==>
      var m := Match(ExpectedParen, lines[0], false).value;
      var note := OpeningParenNote(lines);
      var where := if note.Some? then note.value.1 else Show(m.line);
      && ConsumesPrefix(lines, r, if note.Some? then 4 else 1)
      && r.response == [Format(MatchParens, [Show(m.file)]), Format(MissingParen, [where, Show(m.file)])]
  {
    if lines == [] then Raises(IndexError)
    else
      match Match(ExpectedParen, lines[0], false)
      case None => Declined
      case Some(m) =>
        var note := OpeningParenNote(lines);
        var matchLine := if note.Some? then note.value.1 else Show(m.line);
        var n := if note.Some? then 4 else 1;
        Matched(Take(lines, n), [Format(MatchParens, [Show(m.file)]), Format(MissingParen, [matchLine, Show(m.file)])])
  }

  /** The template of `expected_for_semi_colon` split at its one field. */
  const ForSemiColonHead := "Be sure to separate the three components of the 'for' loop on line "
  const ForSemiColonTail := " with semicolons."

  /** `expected_for_semi_colon` as written: the field that should hold the
      line number is filled with the file name. */
  function ExpectedForSemiColonAsWritten(lines: seq<string>): (r: Outcome)
    ensures Gated(lines, ClangPatterns.ExpectedForSemiColon, false, r)
    ensures r.Matched? ==>
      var m := Match(ClangPatterns.ExpectedForSemiColon, lines[0], false).value;
      && ConsumesPrefix(lines, r, if |lines| >= 2 && HasKeywordParen(lines[1], "for") then 2 else 1)
      && r.response == [ForSemiColonHead + Show(m.file) + ForSemiColonTail]
  {
    if lines == [] then Raises(IndexError)
    else
      match Match(ClangPatterns.ExpectedForSemiColon, lines[0], false)
      case None => Declined
      case Some(m) =>
        var response := [ForSemiColonHead + Show(m.file) + ForSemiColonTail];
        Matched(Take(lines, if |lines| >= 2 && HasKeywordParen(lines[1], "for") then 2 else 1), response)
  }

  /** `expected_for_semi_colon` with the line number in its place. */
  function ExpectedForSemiColon(lines: seq<string>): (r: Outcome)
    ensures Gated(lines, ClangPatterns.ExpectedForSemiColon, false, r)
    ensures r.Matched? ==>
      var m := Match(ClangPatterns.ExpectedForSemiColon, lines[0], false).value;
      && ConsumesPrefix(lines, r, if |lines| >= 2 && HasKeywordParen(lines[1], "for") then 2 else 1)
      && r.response == [ForSemiColonHead + Show(m.line) + ForSemiColonTail]
  {
    if lines == [] then Raises(IndexError)
    else
      match Match(ClangPatterns.ExpectedForSemiColon, lines[0], false)
      case None => Declined
      case Some(m) =>
        var response := [ForSemiColonHead + Show(m.line) + ForSemiColonTail];
        Matched(Take(lines, if |lines| >= 2 && HasKeywordParen(lines[1], "for") then 2 else 1), response)
  }

  /** For a diagnostic rendered from a header whose file name is not its
      line number, the rule as written names the file where the line belongs,
      and the corrected rule names the line. */
  lemma ForSemiColonNamesFile(h: Header, rest: seq<string>)
    requires WellFormed(h) && h.message == "expected ';' in 'for' statement specifier"
    requires h.file != h.line
    ensures var r := ExpectedForSemiColonAsWritten([Render(h)] + rest);
      && r.Matched? && r.response == [ForSemiColonHead + h.file + ForSemiColonTail]
    ensures var r := ExpectedForSemiColon([Render(h)] + rest);
      && r.Matched? && r.response == [ForSemiColonHead + h.line + ForSemiColonTail]
    ensures ExpectedForSemiColonAsWritten([Render(h)] + rest).response != ExpectedForSemiColon([Render(h)] + rest).response
  {
    MatchRendered(ClangPatterns.ExpectedForSemiColon, h);
    assert StartsWith(h.message, "expected ';' in 'for' statement specifier");
    MiddleDiffers(ForSemiColonHead, h.file, h.line, ForSemiColonTail);
    var a := [ForSemiColonHead + h.file + ForSemiColonTail];
    var b := [ForSemiColonHead + h.line + ForSemiColonTail];
    assert a[0] != b[0];
  }

  const FunctionsStartEnd := "Looks like `clang` is having some trouble understanding where your functions start and end in your code."
  const DefiningBefore := "Are you defining a function (like `main` or some other function) somewhere just before "
    + "line {} of `{}`?"
  const NoSemicolonHeader := "If so, make sure the function's first line doesn't end with a semicolon."
  const InsideBraces := "Also, make sure that all of the code for your function is inside of curly braces."

  /** `expected_identifier_or_parens` */
  function ExpectedIdentifierOrParens(lines: seq<string>): (r: Outcome)
    ensures Gated(lines, ExpectedIdentifierOrParen, false, r)
    ensures r.Matched? ==>
      var m := Match(ExpectedIdentifierOrParen, lines[0], false).value;
      && ConsumesPrefix(lines, r, 1)
      && r.response == [FunctionsStartEnd, Format(DefiningBefore, [Show(m.line), Show(m.file)]), NoSemicolonHeader,
           InsideBraces]
  {
    if lines == [] then Raises(IndexError)
    else
      match Match(ExpectedIdentifierOrParen, lines[0], false)
      case None => Declined
      case Some(m) =>
        Matched(Take(lines, 1), [FunctionsStartEnd, Format(DefiningBefore, [Show(m.line), Show(m.file)]),
          NoSemicolonHeader, InsideBraces])
  }

  const EncloseCondition := "In your `if` statement on line {} of `{}`, be sure that you're enclosing the condition you're testing within"
    + " parentheses."

  /** `expected_if_open_parens` */
  function ExpectedIfOpenParens(lines: seq<string>): (r: Outcome)
    ensures Gated(lines, ExpectedParenAfterIf, false, r)
    ensures r.Matched? ==>
      var m := Match(ExpectedParenAfterIf, lines[0], false).value;
      && ConsumesPrefix(lines, r, if |lines| >= 2 && HasKeywordParen(lines[1], "if") then 2 else 1)
      && r.response == [Format(EncloseCondition, [Show(m.line), Show(m.file)])]
  {
    if lines == [] then Raises(IndexError)
    else
      match Match(ExpectedParenAfterIf, lines[0], false)
      case None => Declined
      case Some(m) =>
        var response := [Format(EncloseCondition, [Show(m.line), Show(m.file)])];
        Matched(Take(lines, if |lines| >= 2 && HasKeywordParen(lines[1], "if") then 2 else 1), response)
  }

  const CallInsideFunction := "If you're trying to call a function on line {} of `{}`, be sure that you're calling it inside of curly braces "
    + "within a function. Also check that the function's header (the line introducing the function's name) doesn't "
    + "end in a semicolon."
  const ArgumentsTyped := "Alternatively, if you're trying to declare a function or prototype on line {} of `{}`, be sure each argument "
    + "to the function is formatted as a data type followed by a variable name."

  /** `expected_param_declarator`: consumes the source line and a caret
      line standing alone. */
  function ExpectedParamDeclaratorRule(lines: seq<string>): (r: Outcome)
    ensures Gated(lines, ExpectedParamDeclarator, false, r)
    ensures r.Matched? ==>
      var m := Match(ExpectedParamDeclarator, lines[0], false).value;
      && ConsumesPrefix(lines, r, if |lines| >= 3 && AloneAfterSpace(lines[2], '^') then 3 else 1)
      && r.response == [Format(CallInsideFunction, [Show(m.line), Show(m.file)]),
           Format(ArgumentsTyped, [Show(m.line), Show(m.file)])]
  {
    if lines == [] then Raises(IndexError)
    else
      match Match(ExpectedParamDeclarator, lines[0], false)
      case None => Declined
      case Some(m) =>
        var response := [Format(CallInsideFunction, [Show(m.line), Show(m.file)]),
          Format(ArgumentsTyped, [Show(m.line), Show(m.file)])];
        Matched(Take(lines, if |lines| >= 3 && AloneAfterSpace(lines[2], '^') then 3 else 1), response)
  }

  const MissingSemicolon := "Are you missing a semicolon at the end of line {} of `{}`?"

  /** `expected_semi_colon`: a lone caret as the third line, and then a
      lone `;` as the fourth, are consumed too. */
  function ExpectedSemiColonRule(lines: seq<string>): (r: Outcome)
    ensures Gated(lines, ExpectedSemiColon, false, r)
    ensures r.Matched? ==>
      var m := Match(ExpectedSemiColon, lines[0], false).value;
      && ConsumesPrefix(lines, r,
           if |lines| >= 3 && AloneAfterSpace(lines[2], '^') then
             (if |lines| >= 4 && AloneAfterSpace(lines[3], ';') then 4 else 3)
           else 1)
      && r.response == [Format(MissingSemicolon, [Show(m.line), Show(m.file)])]
  {
    if lines == [] then Raises(IndexError)
    else
      match Match(ExpectedSemiColon, lines[0], false)
      case None => Declined
      case Some(m) =>
        var response := [Format(MissingSemicolon, [Show(m.line), Show(m.file)])];
        if |lines| >= 3 && AloneAfterSpace(lines[2], '^') then
          if |lines| >= 4 && AloneAfterSpace(lines[3], ';') then Matched(Take(lines, 4), response)
          else Matched(Take(lines, 3), response)
        else Matched(Take(lines, 1), response)
  }

  const LeftOffWhile := "Looks like you're trying to create a `do/while` loop, but you've left off the `while` statement."
  const AddWhile := "Try adding `while` followed by a condition just before line {} of `{}`."

  /** `expected_while_in_do_while` */
  function ExpectedWhileInDoWhile(lines: seq<string>): (r: Outcome)
    ensures Gated(lines, ExpectedWhile, false, r)
    ensures r.Matched? ==>
      var m := Match(ExpectedWhile, lines[0], false).value;
      && ConsumesPrefix(lines, r, 1)
      && r.response == [LeftOffWhile, Format(AddWhile, [Show(m.line), Show(m.file)])]
  {
    if lines == [] then Raises(IndexError)
    else
      match Match(ExpectedWhile, lines[0], false)
      case None => Declined
      case Some(m) => Matched(Take(lines, 1), [LeftOffWhile, Format(AddWhile, [Show(m.line), Show(m.file)])])
  }

  const CaseInteger := "Remember that each `case` in a `switch` statement needs to be an integer (or a `char`, which is really just "
    + "an integer), not a Boolean expression or other type."

  /** `expression_not_int_const` */
  function ExpressionNotIntConst(lines: seq<string>): (r: Outcome)
    ensures Gated(lines, NotIntConstant, false, r)
    ensures r.Matched? ==> ConsumesPrefix(lines, r, if |lines| >= 2 then 2 else 1) && r.response == [CaseInteger]
  {
    if lines == [] then Raises(IndexError)
    else
      match Match(NotIntConstant, lines[0], false)
      case None => Declined
      case Some(_) => Matched(Take(lines, if |lines| >= 2 then 2 else 1), [CaseInteger])
  }

  const NotSaving := "On line {} of `{}` you are performing an operation, but not saving the result."
  const PrintOrStore := "Did you mean to print or store the result in a variable?"

  /** `expression_result_unused` */
  function ExpressionResultUnused(lines: seq<string>): (r: Outcome)
    ensures Gated(lines, ResultUnused, false, r)
    ensures r.Matched? ==>
      var m := Match(ResultUnused, lines[0], false).value;
      && ConsumesPrefix(lines, r, 1)
      && r.response == [Format(NotSaving, [Show(m.line), Show(m.file)]), PrintOrStore]
  {
    if lines == [] then Raises(IndexError)
    else
      match Match(ResultUnused, lines[0], false)
      case None => Declined
      case Some(m) => Matched(Take(lines, 1), [Format(NotSaving, [Show(m.line), Show(m.file)]), PrintOrStore])
  }

  const ErrorInFile := "You seem to have an error in `{}` on line {}."
  const ExtraTokens := "By \"extra tokens\", `clang` means that you have one or more extra characters on that line that you shouldn't."
  const RemoveSemicolon := "Try removing the semicolon at the end of that line."
  const RemoveToken := "Try removing the `{}` at the end of that line."

  /** `extra_tokens_at_end_of_include`: with a caret line as the third line,
      the character above the caret is named, and indexing the source line
      there raises when the caret lies past its end. */
  function ExtraTokensAtEndOfInclude(lines: seq<string>): (r: Outcome)
    ensures lines == [] ==> r == Raises(IndexError)
    ensures lines != [] ==> (r.Declined? <==> Match(ExtraTokensInclude, lines[0], false).None?)
    ensures r.Raises? <==>
      || lines == []
      || (&& Match(ExtraTokensInclude, lines[0], false).Some?
          && |lines| >= 3 && CaretFirst(lines[2]) && Run(lines[2], 0, IsSpace) >= |lines[1]|)
    ensures r.Raises? ==> r.error == IndexError
    ensures r.Matched? ==>
      var m := Match(ExtraTokensInclude, lines[0], false).value;
      var opening := [Format(ErrorInFile, [Show(m.file), Show(m.line)]), ExtraTokens];
      if |lines| >= 3 && CaretFirst(lines[2]) then
        var token := lines[1][Run(lines[2], 0, IsSpace)];
        && ConsumesPrefix(lines, r, 2)
        && r.response == opening + [if token == ';' then RemoveSemicolon else Format(RemoveToken, [[token]])]
      else ConsumesPrefix(lines, r, 1) && r.response == opening
  {
    if lines == [] then Raises(IndexError)
    else
      match Match(ExtraTokensInclude, lines[0], false)
      case None => Declined
      case Some(m) =>
        var response := [Format(ErrorInFile, [Show(m.file), Show(m.line)]), ExtraTokens];
        if |lines| >= 3 && CaretFirst(lines[2]) then
          var column := Run(lines[2], 0, IsSpace);
          if column >= |lines[1]| then Raises(IndexError)
          else
            var token := lines[1][column];
            var hint := if token == ';' then RemoveSemicolon else Format(RemoveToken, [[token]]);
            Matched(Take(lines, 2), response + [hint])
        else Matched(Take(lines, 1), response)
  }

  const UnnecessaryBrace := "You seem to have an unnecessary `}}` on line {} of `{}`."

  /** `extraneous_closing_brace` */
  function ExtraneousClosingBrace(lines: seq<string>): (r: Outcome)
    ensures Gated(lines, ExtraneousBrace, false, r)
    ensures r.Matched? ==>
      var m := Match(ExtraneousBrace, lines[0], false).value;
      && ConsumesPrefix(lines, r, if |lines| >= 3 && CaretOnly(lines[2]) then 3 else 1)
      && r.response == [Format(UnnecessaryBrace, [Show(m.line), Show(m.file)])]
  {
    if lines == [] then Raises(IndexError)
    else
      match Match(ExtraneousBrace, lines[0], false)
      case None => Declined
      case Some(m) =>
        var response := [Format(UnnecessaryBrace, [Show(m.line), Show(m.file)])];
        Matched(Take(lines, if |lines| >= 3 && CaretOnly(lines[2]) then 3 else 1), response)
  }

  const ExtraParen := "You seem to have an extra parenthesis on line {} of `{}`, just before "
    + "the semicolon."

  /** `extraneous_closing_parens` */
  function ExtraneousClosingParens(lines: seq<string>): (r: Outcome)
    ensures Gated(lines, ExtraneousParen, false, r)
    ensures r.Matched? ==>
      var m := Match(ExtraneousParen, lines[0], false).value;
      && ConsumesPrefix(lines, r, if |lines| >= 3 && HasCaret(lines[2]) then 3 else 1)
      && r.response == [Format(ExtraParen, [Show(m.line), Show(m.file)])]
  {
    if lines == [] then Raises(IndexError)
    else
      match Match(ExtraneousParen, lines[0], false)
      case None => Declined
      case Some(m) =>
        var response := [Format(ExtraParen, [Show(m.line), Show(m.file)])];
        Matched(Take(lines, if |lines| >= 3 && HasCaret(lines[2]) then 3 else 1), response)
  }

  const NoSuchFile := "Looks like you're trying to `#include` a file (`{}`) on line {} of `{}` which "
    + "does not exist."
  const WithoutU := "Did you mean to `#include <stdio.h>` (without the `u`)?"
  const CheckSpelling := "Check to make sure you spelled the filename correctly."

  /** `file_not_found_include`: `studio.h` is taken for a misspelt
      `stdio.h`; the source line is consumed when it holds `#include`. */
  function FileNotFoundInclude(lines: seq<string>): (r: Outcome)
    ensures Gated(lines, FileNotFound, false, r)
    ensures r.Matched? ==>
      var m := Match(FileNotFound, lines[0], false).value;
      && ConsumesPrefix(lines, r, if |lines| >= 2 && Contains(lines[1], "#include") then 2 else 1)
      && r.response == [Format(NoSuchFile, [Group(m, 0), Show(m.line), Show(m.file)]),
           if Group(m, 0) == "studio.h" then WithoutU else CheckSpelling]
  {
    if lines == [] then Raises(IndexError)
    else
      match Match(FileNotFound, lines[0], false)
      case None => Declined
      case Some(m) =>
        var hint := if Group(m, 0) == "studio.h" then WithoutU else CheckSpelling;
        var response := [Format(NoSuchFile, [Group(m, 0), Show(m.line), Show(m.file)]), hint];
        Matched(Take(lines, if |lines| >= 2 && Contains(lines[1], "#include") then 2 else 1), response)
  }
}
