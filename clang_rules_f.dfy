/** The clang rules of helpers/clang.py from `fmt_specifies_type` to
    `multiple_unsequenced_modifications`, in source order. */
module ClangRulesF {
  import opened Text
  import opened ClangMatch
  import opened ClangMarkers
  import opened ClangPatterns

  const CorrectFormatCode := "Be sure to use the correct format code (e.g., `%i` for integers, `%f` for floating-point values, `%s` for "
    + "strings, etc.) in your format string on line {} of `{}`."

  /** `fmt_specifies_type`: a third line with a caret in it is consumed,
      and a fourth with a `%` in it too. */
  function FmtSpecifiesType(lines: seq<string>): (r: Outcome)
    ensures Gated(lines, FormatSpecifiesType, false, r)
    ensures r.Matched? ==>
      var m := Match(FormatSpecifiesType, lines[0], false).value;
      && ConsumesPrefix(lines, r,
           if |lines| >= 3 && '^' in lines[2] then (if |lines| >= 4 && '%' in lines[3] then 4 else 3) else 1)
      && r.response == [Format(CorrectFormatCode, [Show(m.line), Show(m.file)])]
  {
    if lines == [] then Raises(IndexError)
    else
      match Match(FormatSpecifiesType, lines[0], false)
      case None => Declined
      case Some(m) =>
        var response := [Format(CorrectFormatCode, [Show(m.line), Show(m.file)])];
        if |lines| >= 3 && '^' in lines[2] then
          if |lines| >= 4 && '%' in lines[3] then Matched(Take(lines, 4), response)
          else Matched(Take(lines, 3), response)
        else Matched(Take(lines, 1), response)
  }

  /** `len("vsnprintf(")`: how far left of the caret the call may begin. */
  const Backtrack := 10

  /** Where the search for the call begins: `max(column - 10, 0)`. */
  function CallSearchStart(caretLine: string): nat
  {
    var column := Run(caretLine, 0, IsSpace);
    if column >= Backtrack then column - Backtrack else 0
  }

  /** The `printf`- or `scanf`-like call `fmt_string_not_string_literal`
      finds in the source line, searching from just left of the caret. */
  function FormatCall(lines: seq<string>): Option<string>
    requires |lines| >= 3
  {
    match Search(PrintfCall, Drop(lines[1], CallSearchStart(lines[2])), 0)
    case None => None
    case Some((_, g)) => Some(Show(g[0]))
  }

  const DoubleQuotedFirst := "The first argument to `{}` on line {} of `{}` should be a double-quoted "
    + "string."

  /** `fmt_string_not_string_literal`: declines unless a caret line follows
      and a call whose name ends in `printf` or `scanf` is found near the
      caret, even when the message matched. */
  function FmtStringNotStringLiteral(lines: seq<string>): (r: Outcome)
    ensures r.Raises? <==> lines == []
    ensures r.Raises? ==> r.error == IndexError
    ensures lines != [] ==>
      (r.Matched? <==>
        && Match(FormatNotLiteral, lines[0], false).Some?
        && |lines| >= 3 && CaretFirst(lines[2]) && FormatCall(lines).Some?)
    ensures r.Matched? ==>
      var m := Match(FormatNotLiteral, lines[0], false).value;
      && ConsumesPrefix(lines, r, 2)
      && r.response == [Format(DoubleQuotedFirst, [FormatCall(lines).value, Show(m.line), Show(m.file)])]
    ensures r.Matched? ==>
      var name := FormatCall(lines).value;
      && (EndsWith(name, "printf") || EndsWith(name, "scanf"))
      && forall k :: 0 <= k < |name| ==> IsWordChar(name[k])
  {
    if lines == [] then Raises(IndexError)
    else
      match Match(FormatNotLiteral, lines[0], false)
      case None => Declined
      case Some(m) =>
        if |lines| >= 3 && CaretFirst(lines[2]) then
          match FormatCall(lines)
          case None => Declined
          case Some(name) => Matched(Take(lines, 2), [Format(DoubleQuotedFirst, [name, Show(m.line), Show(m.file)])])
        else Declined
  }

  const RemoveSemicolonAfter := "Try removing the semicolon directly after the closing parentheses of the `{}` on line {} of "
    + "`{}`."

  /** `has_empty_body`: names the kind of statement. */
  function HasEmptyBody(lines: seq<string>): (r: Outcome)
    ensures Gated(lines, EmptyBody, false, r)
    ensures r.Matched? ==>
      var m := Match(EmptyBody, lines[0], false).value;
      && ConsumesPrefix(lines, r, if |lines| >= 2 && HasKeywordParen(lines[1], "if") then 2 else 1)
      && r.response == [Format(RemoveSemicolonAfter, [Group(m, 0), Show(m.line), Show(m.file)])]
  {
    if lines == [] then Raises(IndexError)
    else
      match Match(EmptyBody, lines[0], false)
      case None => Declined
      case Some(m) =>
        var response := [Format(RemoveSemicolonAfter, [Group(m, 0), Show(m.line), Show(m.file)])];
        Matched(Take(lines, if |lines| >= 2 && HasKeywordParen(lines[1], "if") then 2 else 1), response)
  }

  const CallingNamed := "You seem to be calling `{}` on line {} of `{}` but aren't using its "
    + "return value."
  const CallingUnnamed := "You seem to be calling a function on line {} of `{}` but aren't using its "
    + "return value."
  const AssignIt := "Did you mean to assign it to a variable?"

  /** `ignoring_return_value`: names the function when a caret points at it. */
  function IgnoringReturnValueRule(lines: seq<string>): (r: Outcome)
    ensures Gated(lines, IgnoringReturnValue, false, r)
    ensures r.Matched? ==>
      var m := Match(IgnoringReturnValue, lines[0], false).value;
      var callee := CaretExtract(Window(lines, 1, 3), true);
      && ConsumesPrefix(lines, r, if callee.Some? then 3 else 1)
      && r.response == [
           if callee.Some? then Format(CallingNamed, [callee.value, Show(m.line), Show(m.file)])
           else Format(CallingUnnamed, [Show(m.line), Show(m.file)]),
           AssignIt]
  {
    if lines == [] then Raises(IndexError)
    else
      match Match(IgnoringReturnValue, lines[0], false)
      case None => Declined
      case Some(m) =>
        var callee := CaretExtract(Window(lines, 1, 3), true);
        if callee.Some? then
          Matched(Take(lines, 3), [Format(CallingNamed, [callee.value, Show(m.line), Show(m.file)]), AssignIt])
        else Matched(Take(lines, 1), [Format(CallingUnnamed, [Show(m.line), Show(m.file)]), AssignIt])
  }

  /** The CS50 Library's input functions, old and new names. */
  const Cs50Functions: set<string> := {
    "get_char", "get_double", "get_float", "get_int", "get_long", "get_long_long",
    "get_string", "GetChar", "GetDouble", "GetFloat", "GetInt", "GetLong", "GetLongLong",
    "GetString"}

  const NotRecognized := "By \"implicit declaration of function '{}'\", `clang` means that it doesn't recognize "
    + "`{}`."
  const IncludeCs50 := "Did you forget to `#include <cs50.h>` (in which `{}` is declared) atop "
    + "your file?"
  const IncludeUnistd := "Did you forget to `#include <unistd.h>` (in which `{}` is declared) atop "
    + "your file?"
  const XopenSource := "Do you have `#define _XOPEN_SOURCE` above, not below, `#include <unistd.h>`?"
  const EprintfDeprecated := "The function `eprintf` has been deprecated and is thus no longer part of the CS50 library."
  const IncludeHeader := "Did you forget to `#include` the header file in which `{}` is declared atop "
    + "your file?"
  const DeclarePrototype := "Did you forget to declare a prototype for `{}` atop `{}`?"

  /** The hints `implicit_declaration_of_fun` gives for a function name. */
  function ImplicitDeclarationHints(name: string, file: string): (r: seq<string>)
    ensures name in Cs50Functions ==> r == [Format(IncludeCs50, [name])]
    ensures name == "crypt" ==> r == [Format(IncludeUnistd, [name]), XopenSource]
    ensures name == "eprintf" ==> r == [EprintfDeprecated]
    ensures name !in Cs50Functions && name != "crypt" && name != "eprintf" ==>
      r == [Format(IncludeHeader, [name]), Format(DeclarePrototype, [name, file])]
  {
    if name in Cs50Functions then [Format(IncludeCs50, [name])]
    else if name == "crypt" then [Format(IncludeUnistd, [name]), XopenSource]
    else if name == "eprintf" then [EprintfDeprecated]
    else [Format(IncludeHeader, [name]), Format(DeclarePrototype, [name, file])]
  }

  /** `implicit_declaration_of_fun`: the source line is consumed when it
      mentions the function. */
  function ImplicitDeclarationOfFun(lines: seq<string>): (r: Outcome)
    ensures Gated(lines, ImplicitDeclaration, false, r)
    ensures r.Matched? ==>
      var m := Match(ImplicitDeclaration, lines[0], false).value;
      var name := Group(m, 0);
      && ConsumesPrefix(lines, r, if |lines| >= 2 && Contains(lines[1], name) then 2 else 1)
      && r.response == [Format(ErrorInFileAt, [Show(m.file), Show(m.line)]), Format(NotRecognized, [name, name])]
           + ImplicitDeclarationHints(name, Show(m.file))
  {
    if lines == [] then Raises(IndexError)
    else
      match Match(ImplicitDeclaration, lines[0], false)
      case None => Declined
      case Some(m) =>
        var name := Group(m, 0);
        var response := [Format(ErrorInFileAt, [Show(m.file), Show(m.line)]), Format(NotRecognized, [name, name])]
          + ImplicitDeclarationHints(name, Show(m.file));
        Matched(Take(lines, if |lines| >= 2 && Contains(lines[1], name) then 2 else 1), response)
  }

  const ErrorInFileAt := "You seem to have an error in `{}` on line {}."

  const IncludeStdio := "Did you forget to `#include <stdio.h>` (in which `printf` is declared) atop your file?"
  const IncludeStdlib := "Did you forget to `#include <stdlib.h>` (in which `malloc` is declared) atop your file?"

  /** `implicitly_declaring_lib_fun`: the header for `printf` and `malloc`
      is named. */
  function ImplicitlyDeclaringLibFun(lines: seq<string>): (r: Outcome)
    ensures Gated(lines, ImplicitLibraryFunction, false, r)
    ensures r.Matched? ==>
      var name := Group(Match(ImplicitLibraryFunction, lines[0], false).value, 0);
      && ConsumesPrefix(lines, r, if |lines| >= 2 && HasKeywordParen(lines[1], "printf") then 2 else 1)
      && r.response == [
           if name == "printf" then IncludeStdio
           else if name == "malloc" then IncludeStdlib
           else Format(IncludeHeader, [name])]
  {
    if lines == [] then Raises(IndexError)
    else
      match Match(ImplicitLibraryFunction, lines[0], false)
      case None => Declined
      case Some(m) =>
        var name := Group(m, 0);
        var response := [
          if name == "printf" then IncludeStdio
          else if name == "malloc" then IncludeStdlib
          else Format(IncludeHeader, [name])];
        Matched(Take(lines, if |lines| >= 2 && HasKeywordParen(lines[1], "printf") then 2 else 1), response)
  }

  const DifferentType := "By \"incompatible conversion\", `clang` means that you are assigning a value to a variable of a different type "
    + "on line {} of `{}`. Try ensuring that your value is of "
    + "type `{}`."

  /** `incompatible_conversion`: names the type converted to. */
  function IncompatibleConversionRule(lines: seq<string>): (r: Outcome)
    ensures Gated(lines, IncompatibleConversion, false, r)
    ensures r.Matched? ==>
      var m := Match(IncompatibleConversion, lines[0], false).value;
      && ConsumesPrefix(lines, r, if |lines| >= 2 && '=' in lines[1] then 2 else 1)
      && r.response == [Format(DifferentType, [Show(m.line), Show(m.file), Group(m, 1)])]
  {
    if lines == [] then Raises(IndexError)
    else
      match Match(IncompatibleConversion, lines[0], false)
      case None => Declined
      case Some(m) =>
        var response := [Format(DifferentType, [Show(m.line), Show(m.file), Group(m, 1)])];
        Matched(Take(lines, if |lines| >= 2 && '=' in lines[1] then 2 else 1), response)
  }

  /** `int(g) < 0` for a `-?\d+` capture: `-0` is not negative. */
  predicate IsNegative(g: string)
  {
    |g| >= 2 && g[0] == '-' && AllDigits(g[1..]) && ParseNat(g[1..]) > 0
  }

  const BeforeStart := "Looks like you're to access location {} of an array on line {} of `{}`, but that location is "
    + "before the start of the array."
  const PastEnd := "Looks like you're to access location {} of an array on line {} of `{}`, but that location is "
    + "past the end of the array."

  /** `index_out_of_bounds`: a negative index is before the start of the
      array, any other past its end. */
  function IndexOutOfBoundsRule(lines: seq<string>): (r: Outcome)
    ensures Gated(lines, IndexOutOfBounds, false, r)
    ensures r.Matched? ==>
      var m := Match(IndexOutOfBounds, lines[0], false).value;
      var g := Group(m, 0);
      && ConsumesPrefix(lines, r, 1)
      && r.response == [Format(if IsNegative(g) then BeforeStart else PastEnd, [g, Show(m.line), Show(m.file)])]
  {
    if lines == [] then Raises(IndexError)
    else
      match Match(IndexOutOfBounds, lines[0], false)
      case None => Declined
      case Some(m) =>
        var g := Group(m, 0);
        Matched(Take(lines, 1), [Format(if IsNegative(g) then BeforeStart else PastEnd, [g, Show(m.line), Show(m.file)])])
  }

  /** A digit string is negative exactly when it is written with a minus
      sign and has a non-zero digit. */
  lemma NegativeIndex(d: string)
    requires d != [] && AllDigits(d)
    ensures !IsNegative(d)
    ensures IsNegative("-" + d) <==> exists k :: 0 <= k < |d| && d[k] != '0'
  {
    assert ("-" + d)[1..] == d;
    NonZeroDigit(d);
  }

  lemma {:induction false} NonZeroDigit(d: string)
    requires AllDigits(d)
    ensures ParseNat(d) > 0 <==> exists k :: 0 <= k < |d| && d[k] != '0'
  {
    if d != [] {
      var init := d[..|d| - 1];
      NonZeroDigit(init);
      if exists k :: 0 <= k < |init| && init[k] != '0' {
        var k :| 0 <= k < |init| && init[k] != '0';
        assert d[k] != '0';
      }
      if exists k :: 0 <= k < |d| && d[k] != '0' {
        var k :| 0 <= k < |d| && d[k] != '0';
        if k < |init| {
          assert init[k] != '0';
        }
      }
    }
  }

  const CannotConcatenate := "Careful, you can't concatenate values and strings in C using the `+` operator, "
    + "as you seem to be trying to do on line {} of `{}`."
  const FormatCodeForValue := "Odds are you want to provide `printf` with a format code for that value and pass that value to"
    + " `printf` as an argument."

  /** `invalid_append_string`: with a `printf(` on the next line, all
      remaining lines are consumed. */
  function InvalidAppendString(lines: seq<string>): (r: Outcome)
    ensures Gated(lines, AddingToString, false, r)
    ensures r.Matched? ==>
      var m := Match(AddingToString, lines[0], false).value;
      var call := |lines| >= 2 && HasKeywordParen(lines[1], "printf");
      && ConsumesPrefix(lines, r, if call then |lines| else 1)
      && r.response == [Format(CannotConcatenate, [Show(m.line), Show(m.file)])]
           + (if call then [FormatCodeForValue] else [])
  {
    if lines == [] then Raises(IndexError)
    else
      match Match(AddingToString, lines[0], false)
      case None => Declined
      case Some(m) =>
        var response := [Format(CannotConcatenate, [Show(m.line), Show(m.file)])];
        if |lines| >= 2 && HasKeywordParen(lines[1], "printf") then Matched(lines, response + [FormatCodeForValue])
        else Matched(Take(lines, 1), response)
  }

  const UsedDoubleEquals := "Looks like you may have used '==' (which is used for comparing two values for equality) instead of '=' (which "
    + "is used to assign a value to a variable) on line {} of `{}`?"

  /** `invalid_equals` */
  function InvalidEqualsRule(lines: seq<string>): (r: Outcome)
    ensures Gated(lines, InvalidEquals, false, r)
    ensures r.Matched? ==>
      var m := Match(InvalidEquals, lines[0], false).value;
      ConsumesPrefix(lines, r, 1) && r.response == [Format(UsedDoubleEquals, [Show(m.line), Show(m.file)])]
  {
    if lines == [] then Raises(IndexError)
    else
      match Match(InvalidEquals, lines[0], false)
      case None => Declined
      case Some(m) => Matched(Take(lines, 1), [Format(UsedDoubleEquals, [Show(m.line), Show(m.file)])])
  }

  /** The first template of `invalid_preprocessing_directive` split at its
      one field. */
  const DirectiveHead := "By \"invalid preprocesing directive\", `clang` means that you've used a preprocessor command on line "
  const DirectiveTail := " (a command beginning with #) that is not recognized."
  const ValidDirective := "Check to make sure that `{}` is a valid directive (like `#include`) and is spelled "
    + "correctly."

  /** `invalid_preprocessing_directive` as written: the field that should
      hold the line number is filled with the file name. */
  function InvalidPreprocessingDirectiveAsWritten(lines: seq<string>): (r: Outcome)
    ensures Gated(lines, InvalidDirective, false, r)
    ensures r.Matched? ==>
      var m := Match(InvalidDirective, lines[0], false).value;
      var directive := if |lines| >= 2 then Directive(lines[1]) else None;
      && ConsumesPrefix(lines, r, if directive.Some? then 2 else 1)
      && r.response == [DirectiveHead + Show(m.file) + DirectiveTail]
           + (if directive.Some? then [Format(ValidDirective, [directive.value])] else [])
  {
    if lines == [] then Raises(IndexError)
    else
      match Match(InvalidDirective, lines[0], false)
      case None => Declined
      case Some(m) =>
        var response := [DirectiveHead + Show(m.file) + DirectiveTail];
        var directive := if |lines| >= 2 then Directive(lines[1]) else None;
        if directive.Some? then Matched(Take(lines, 2), response + [Format(ValidDirective, [directive.value])])
        else Matched(Take(lines, 1), response)
  }

  /** `invalid_preprocessing_directive` with the line number in its place;
      the directive as typed is quoted when the next line starts with one. */
  function InvalidPreprocessingDirective(lines: seq<string>): (r: Outcome)
    ensures Gated(lines, InvalidDirective, false, r)
    ensures r.Matched? ==>
      var m := Match(InvalidDirective, lines[0], false).value;
      var directive := if |lines| >= 2 then Directive(lines[1]) else None;
      && ConsumesPrefix(lines, r, if directive.Some? then 2 else 1)
      && r.response == [DirectiveHead + Show(m.line) + DirectiveTail]
           + (if directive.Some? then [Format(ValidDirective, [directive.value])] else [])
  {
    if lines == [] then Raises(IndexError)
    else
      match Match(InvalidDirective, lines[0], false)
      case None => Declined
      case Some(m) =>
        var response := [DirectiveHead + Show(m.line) + DirectiveTail];
        var directive := if |lines| >= 2 then Directive(lines[1]) else None;
        if directive.Some? then Matched(Take(lines, 2), response + [Format(ValidDirective, [directive.value])])
        else Matched(Take(lines, 1), response)
  }

  /** For a diagnostic rendered from a header whose file name is not its
      line number, the rule as written names the file where the line
      belongs, and the corrected rule names the line. */
  lemma DirectiveNamesFile(h: Header, rest: seq<string>)
    requires WellFormed(h) && h.message == "invalid preprocessing directive"
    requires h.file != h.line
    ensures var r := InvalidPreprocessingDirectiveAsWritten([Render(h)] + rest);
      r.Matched? && r.response[0] == DirectiveHead + h.file + DirectiveTail
    ensures var r := InvalidPreprocessingDirective([Render(h)] + rest);
      r.Matched? && r.response[0] == DirectiveHead + h.line + DirectiveTail
    ensures InvalidPreprocessingDirectiveAsWritten([Render(h)] + rest).response
      != InvalidPreprocessingDirective([Render(h)] + rest).response
  {
    MatchRendered(InvalidDirective, h);
    assert StartsWith(h.message, "invalid preprocessing directive");
    MiddleDiffers(DirectiveHead, h.file, h.line, DirectiveTail);
  }

  const MainReturnType := "Your `main` function (declared on line {} of `{}`) must have a return "
    + "type `int`."
  const CurrentReturnType := "Right now, it has a return type of `{}`."

  /** `main_must_return_int`: names the return type a caret points at. */
  function MainMustReturnInt(lines: seq<string>): (r: Outcome)
    ensures Gated(lines, MainReturnsInt, false, r)
    ensures r.Matched? ==>
      var m := Match(MainReturnsInt, lines[0], false).value;
      var current := CaretExtract(Window(lines, 1, 3), true);
      && ConsumesPrefix(lines, r, if current.Some? then 3 else 1)
      && r.response == [Format(MainReturnType, [Show(m.line), Show(m.file)])]
           + (if current.Some? then [Format(CurrentReturnType, [current.value])] else [])
  {
    if lines == [] then Raises(IndexError)
    else
      match Match(MainReturnsInt, lines[0], false)
      case None => Declined
      case Some(m) =>
        var response := [Format(MainReturnType, [Show(m.line), Show(m.file)])];
        var current := CaretExtract(Window(lines, 1, 3), true);
        if |lines| >= 3 && current.Some? then Matched(Take(lines, 3), response + [Format(CurrentReturnType, [current.value])])
        else Matched(Take(lines, 1), response)
  }

  const ForgotParensNamed := "Looks like you're trying to call `{}` on line {} of `{}`, but did you forget parentheses after the"
    + " function's name?"
  const ForgotParensUnnamed := "Looks like you're trying to call a function on line {} of `{}`, but did you forget parentheses after the"
    + " function's name?"

  /** `missing_parens`: names the function a run of tildes marks. */
  function MissingParens(lines: seq<string>): (r: Outcome)
    ensures Gated(lines, AssigningFromFunction, false, r)
    ensures r.Matched? ==>
      var m := Match(AssigningFromFunction, lines[0], false).value;
      var callee := UnderTildes(Window(lines, 1, 3));
      && ConsumesPrefix(lines, r, if callee.Some? then 3 else 1)
      && r.response == [
           if callee.Some? then Format(ForgotParensNamed, [callee.value, Show(m.line), Show(m.file)])
           else Format(ForgotParensUnnamed, [Show(m.line), Show(m.file)])]
  {
    if lines == [] then Raises(IndexError)
    else
      match Match(AssigningFromFunction, lines[0], false)
      case None => Declined
      case Some(m) =>
        var callee := UnderTildes(Window(lines, 1, 3));
        if callee.Some? then
          Matched(Take(lines, 3), [Format(ForgotParensNamed, [callee.value, Show(m.line), Show(m.file)])])
        else Matched(Take(lines, 1), [Format(ForgotParensUnnamed, [Show(m.line), Show(m.file)])])
  }

  const TooManyCodes := "You have too many format codes in your format string on line {} of `{}`."
  const CodesEqualArguments := "Be sure that the number of format codes equals the number of additional arguments."

  /** `more_conversions_than_data_args` */
  function MoreConversionsThanDataArgs(lines: seq<string>): (r: Outcome)
    ensures Gated(lines, MoreConversions, false, r)
    ensures r.Matched? ==>
      var m := Match(MoreConversions, lines[0], false).value;
      && ConsumesPrefix(lines, r, if |lines| >= 2 && '%' in lines[1] then 2 else 1)
      && r.response == [Format(TooManyCodes, [Show(m.line), Show(m.file)]), CodesEqualArguments]
  {
    if lines == [] then Raises(IndexError)
    else
      match Match(MoreConversions, lines[0], false)
      case None => Declined
      case Some(m) =>
        var response := [Format(TooManyCodes, [Show(m.line), Show(m.file)]), CodesEqualArguments];
        Matched(Take(lines, if |lines| >= 2 && '%' in lines[1] then 2 else 1), response)
  }

  const ChangingTwice := "Looks like you're changing the variable `{}` multiple times in a row on line {} of "
    + "`{}`."
  const JustTheOperator := "When using the `{}` operator, there is no need to assign the result to the variable. Try "
    + "using just `{}{}` instead"

  /** `multiple_unsequenced_modifications`: with a `++` or `--` on the next
      line, suggests using the operator alone. */
  function MultipleUnsequencedModifications(lines: seq<string>): (r: Outcome)
    ensures Gated(lines, UnsequencedModifications, false, r)
    ensures r.Matched? ==>
      var m := Match(UnsequencedModifications, lines[0], false).value;
      var variable := Group(m, 0);
      var op := if |lines| >= 2 then IncrementOperator(lines[1], 0) else None;
      && ConsumesPrefix(lines, r, if op.Some? then 2 else 1)
      && r.response == [Format(ChangingTwice, [variable, Show(m.line), Show(m.file)])]
           + (if op.Some? then [Format(JustTheOperator, [op.value, variable, op.value])] else [])
  {
    if lines == [] then Raises(IndexError)
    else
      match Match(UnsequencedModifications, lines[0], false)
      case None => Declined
      case Some(m) =>
        var variable := Group(m, 0);
        var response := [Format(ChangingTwice, [variable, Show(m.line), Show(m.file)])];
        var op := if |lines| >= 2 then IncrementOperator(lines[1], 0) else None;
        if op.Some? then Matched(Take(lines, 2), response + [Format(JustTheOperator, [op.value, variable, op.value])])
        else Matched(Take(lines, 1), response)
  }
}
