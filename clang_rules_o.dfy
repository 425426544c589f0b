/** The clang rules of helpers/clang.py from `one_param_on_main_dec` to
    `catch_all`, in source order. */
module ClangRulesO {
  import opened Text
  import opened ClangMatch
  import opened ClangMarkers
  import opened ClangPatterns
  import ClangRulesA
  import ClangRulesF

  const MainDeclaration := "Looks like your declaration of `main` on line {} of `{}` isn't quite right. The declaration of `main` should "
    + "be `int main(void)` or `int main(int argc, string argv[])` or some "
    + "equivalent."

  /** `one_param_on_main_dec` */
  function OneParamOnMainDec(lines: seq<string>): (r: Outcome)
    ensures Gated(lines, OneParamOnMain, false, r)
    ensures r.Matched? ==>
      var m := Match(OneParamOnMain, lines[0], false).value;
      ConsumesPrefix(lines, r, 1) && r.response == [Format(MainDeclaration, [Show(m.line), Show(m.file)])]
  {
    if lines == [] then Raises(IndexError)
    else
      match Match(OneParamOnMain, lines[0], false)
      case None => Declined
      case Some(m) => Matched(Take(lines, 1), [Format(MainDeclaration, [Show(m.line), Show(m.file)])])
  }

  const ComparisonUnused := "Looks like you're comparing two values on line {} of `{}` but not using the "
    + "result?"

  /** `relational_comp_res_unused` */
  function RelationalCompResUnused(lines: seq<string>): (r: Outcome)
    ensures Gated(lines, RelationalUnused, false, r)
    ensures r.Matched? ==>
      var m := Match(RelationalUnused, lines[0], false).value;
      && ConsumesPrefix(lines, r, if |lines| >= 3 && HasCaret(lines[2]) then 3 else 1)
      && r.response == [Format(ComparisonUnused, [Show(m.line), Show(m.file)])]
  {
    if lines == [] then Raises(IndexError)
    else
      match Match(RelationalUnused, lines[0], false)
      case None => Declined
      case Some(m) =>
        var response := [Format(ComparisonUnused, [Show(m.line), Show(m.file)])];
        Matched(Take(lines, if |lines| >= 3 && HasCaret(lines[2]) then 3 else 1), response)
  }

  const MainNotRight := "Looks like your declaration of `main` isn't quite right."
  const StringArgv := "Be sure its second parameter is `string argv[]` or some equivalent!"

  /** `second_param_main_char` */
  function SecondParamMainChar(lines: seq<string>): (r: Outcome)
    ensures Gated(lines, SecondParamOfMain, false, r)
    ensures r.Matched? ==> ConsumesPrefix(lines, r, 1) && r.response == [MainNotRight, StringArgv]
  {
    if lines == [] then Raises(IndexError)
    else
      match Match(SecondParamOfMain, lines[0], false)
      case None => Declined
      case Some(_) => Matched(Take(lines, 1), [MainNotRight, StringArgv])
  }

  const BothSides := "Looks like you have `{}` on both the left- and right-hand side of the `=` on line {} of `{}`, but `{}` doesn't"
    + " yet have a value."
  const NotWithItself := "Be sure not to initialize `{}` with itself."

  /** `self_initialization`: a `~ ^` marker line is consumed too. */
  function SelfInitializationRule(lines: seq<string>): (r: Outcome)
    ensures Gated(lines, SelfInitialization, false, r)
    ensures r.Matched? ==>
      var m := Match(SelfInitialization, lines[0], false).value;
      var v := Group(m, 0);
      && ConsumesPrefix(lines, r, if |lines| >= 3 && TildeThenCaret(lines[2]) then 3 else 1)
      && r.response == [Format(BothSides, [v, Show(m.line), Show(m.file), v]), Format(NotWithItself, [v])]
  {
    if lines == [] then Raises(IndexError)
    else
      match Match(SelfInitialization, lines[0], false)
      case None => Declined
      case Some(m) =>
        var v := Group(m, 0);
        var response := [Format(BothSides, [v, Show(m.line), Show(m.file), v]), Format(NotWithItself, [v])];
        Matched(Take(lines, if |lines| >= 3 && TildeThenCaret(lines[2]) then 3 else 1), response)
  }

  const NotAnArray := "Looks like you're trying to index into a variable as though it's an array, even though it isn't, on line "
    + "{} of `{}`?"

  /** `subscripted_val_not_array` */
  function SubscriptedValNotArray(lines: seq<string>): (r: Outcome)
    ensures Gated(lines, SubscriptedValue, false, r)
    ensures r.Matched? ==>
      var m := Match(SubscriptedValue, lines[0], false).value;
      ConsumesPrefix(lines, r, 1) && r.response == [Format(NotAnArray, [Show(m.line), Show(m.file)])]
  {
    if lines == [] then Raises(IndexError)
    else
      match Match(SubscriptedValue, lines[0], false)
      case None => Declined
      case Some(m) => Matched(Take(lines, 1), [Format(NotAnArray, [Show(m.line), Show(m.file)])])
  }

  const TooManyPassed := "You seem to be passing in too many arguments to a function on line {} of `{}`."
  const TheFunctionNamed := "The function `{}`"
  const TheFunction := "The function"
  const SupposedToTake := " is supposed to take {} argument(s), but you're passing it "
    + "{}."
  const FewerArguments := "Try providing {} fewer argument(s) to the "
    + "function."

  /** `str(int(have) - int(expected))`: how many arguments are too many. */
  function Surplus(expected: string, have: string): string
  {
    IntToString(CountValue(have) - CountValue(expected))
  }

  /** `int(s)` for the digits the pattern's `(\d+)` captures. */
  function CountValue(s: string): nat
  {
    if AllDigits(s) then ParseNat(s) else 0
  }

  /** `too_many_args_to_fun_call`: names the function when tildes mark it
      and says how many arguments to drop. */
  function TooManyArgsToFunCall(lines: seq<string>): (r: Outcome)
    ensures Gated(lines, TooManyArguments, false, r)
    ensures r.Matched? ==>
      var m := Match(TooManyArguments, lines[0], false).value;
      var callee := if |lines| >= 3 then UnderTildes(Window(lines, 1, 3)) else None;
      var expected := Group(m, 0);
      var have := Group(m, 1);
      && ConsumesPrefix(lines, r, if callee.Some? then 3 else 1)
      && r.response == [
           Format(TooManyPassed, [Show(m.line), Show(m.file)]),
           (if callee.Some? then Format(TheFunctionNamed, [callee.value]) else TheFunction)
             + Format(SupposedToTake, [expected, have]),
           Format(FewerArguments, [Surplus(expected, have)])]
  {
    if lines == [] then Raises(IndexError)
    else
      match Match(TooManyArguments, lines[0], false)
      case None => Declined
      case Some(m) =>
        var callee := if |lines| >= 3 then UnderTildes(Window(lines, 1, 3)) else None;
        var expected := Group(m, 0);
        var have := Group(m, 1);
        var subject := if callee.Some? then Format(TheFunctionNamed, [callee.value]) else TheFunction;
        var response := [
          Format(TooManyPassed, [Show(m.line), Show(m.file)]),
          subject + Format(SupposedToTake, [expected, have]),
          Format(FewerArguments, [Surplus(expected, have)])];
        Matched(Take(lines, if callee.Some? then 3 else 1), response)
  }

  /** The surplus printed is the difference of the two counts in the
      message, `have - expected`. */
  lemma SurplusOfCounts(expected: nat, have: nat)
    ensures Surplus(NatToString(expected), NatToString(have)) == IntToString(have - expected)
  {
    CountOfString(expected);
    CountOfString(have);
    SurplusOf(NatToString(expected), NatToString(have), expected, have);
  }

  /** A count printed by `str` is read back by `int`. */
  lemma CountOfString(n: nat)
    ensures CountValue(NatToString(n)) == n
  {
    ParseNatToString(n);
  }

  /** The surplus is printed from the two counts' values. */
  lemma SurplusOf(expected: string, have: string, e: nat, h: nat)
    requires CountValue(expected) == e && CountValue(have) == h
    ensures Surplus(expected, have) == IntToString(h - e)
  {
  }

  const DeclaringFunction := "Looks like you're trying to declare a function on line {} of `{}`."
  const ReturnTypeFirst := "Be sure, when declaring a function, to specify its return type just before its name."

  /** `type_specifier_missing` */
  function TypeSpecifierMissingRule(lines: seq<string>): (r: Outcome)
    ensures Gated(lines, TypeSpecifierMissing, false, r)
    ensures r.Matched? ==>
      var m := Match(TypeSpecifierMissing, lines[0], false).value;
      && ConsumesPrefix(lines, r, if |lines| >= 3 && AloneAfterSpace(lines[2], '^') then 3 else 1)
      && r.response == [Format(DeclaringFunction, [Show(m.line), Show(m.file)]), ReturnTypeFirst]
  {
    if lines == [] then Raises(IndexError)
    else
      match Match(TypeSpecifierMissing, lines[0], false)
      case None => Declined
      case Some(m) =>
        var response := [Format(DeclaringFunction, [Show(m.line), Show(m.file)]), ReturnTypeFirst];
        Matched(Take(lines, if |lines| >= 3 && AloneAfterSpace(lines[2], '^') then 3 else 1), response)
  }

  const NoMain := "Did you try to compile a file that doesn't contain a `main` function?"
  const CompilingHelpers := "Are you compiling a `helpers.c` file instead of the file containing the program itself?"
  const NotImplemented := "By \"undefined reference,\" `clang` means that you've called a function, `{}`, that doesn't seem to be "
    + "implemented."
  const NotLinked := "If that function has, in fact, been implemented, odds are you've forgotten to tell `clang` to \"link\" "
    + "against the file that implements `{}`."
  const LinkCs50 := "Did you forget to compile with `-lcs50` in order to link against against the CS50 Library, "
    + "which implements `{}`?"
  const LinkCrypt := "Did you forget to compile with -lcrypt in order to link against the crypto library, "
    + "which implemens `crypt`?"
  const LinkFoo := "Did you forget to compile with `-lfoo`, where `foo` is the library that defines "
    + "`{}`?"

  /** What `undefined_reference` says about a symbol the linker missed. */
  function UndefinedReferenceHints(symbol: string, lines: seq<string>): (r: seq<string>)
    ensures symbol == "main" ==>
      r == [NoMain] + (if |lines| > 3 && Contains(lines[2], "make: *** [helpers] Error") then [CompilingHelpers] else [])
    ensures symbol != "main" ==>
      && |r| == 3 && r[..2] == [Format(NotImplemented, [symbol]), Format(NotLinked, [symbol])]
      && r[2] == if symbol in ClangRulesF.Cs50Functions then Format(LinkCs50, [symbol])
                 else if symbol == "crypt" then LinkCrypt
                 else Format(LinkFoo, [symbol])
  {
    if symbol == "main" then
      [NoMain] + (if |lines| > 3 && Contains(lines[2], "make: *** [helpers] Error") then [CompilingHelpers] else [])
    else
      var library :=
        if symbol in ClangRulesF.Cs50Functions then Format(LinkCs50, [symbol])
        else if symbol == "crypt" then LinkCrypt
        else Format(LinkFoo, [symbol]);
      [Format(NotImplemented, [symbol]), Format(NotLinked, [symbol]), library]
  }

  /** `undefined_reference`: a linker message, searched for anywhere in
      the line rather than after a clang header. */
  function UndefinedReferenceRule(lines: seq<string>): (r: Outcome)
    ensures Gated(lines, UndefinedReference, true, r)
    ensures r.Matched? ==>
      var m := Match(UndefinedReference, lines[0], true).value;
      ConsumesPrefix(lines, r, 1) && r.response == UndefinedReferenceHints(Group(m, 0), lines)
  {
    if lines == [] then Raises(IndexError)
    else
      match Match(UndefinedReference, lines[0], true)
      case None => Declined
      case Some(m) => Matched(Take(lines, 1), UndefinedReferenceHints(Group(m, 0), lines))
  }

  /** A line that is a linker message naming a missing symbol is
      recognised, with the symbol recovered. */
  lemma UndefinedReferenceFound(symbol: string, rest: string)
    requires symbol != [] && '\'' !in symbol
    ensures var line := "undefined reference to `" + symbol + "'" + rest;
      && Match(UndefinedReference, line, true).Some?
      && Group(Match(UndefinedReference, line, true).value, 0) == symbol
  {
    var pre := "undefined reference to `";
    var line := pre + symbol + "'" + rest;
    assert line[..|pre|] == pre;
    assert forall k :: 0 <= k < |symbol| ==> line[|pre| + k] == symbol[k];
    RunStops(line, |pre|, NotQuote, |symbol|);
    assert line[|pre| + |symbol|] == '\'';
    assert line[|pre|..|pre| + |symbol|] == symbol;
    assert line[0..] == line;
  }

  const EscapedSpace := "Looks like you have a space immediately after a backslash on line {} of `{}` but "
    + "shouldn't."
  const EscapeSomething := "Did you mean to escape some character?"

  /** `unknown_escape_sequence` */
  function UnknownEscapeSequence(lines: seq<string>): (r: Outcome)
    ensures Gated(lines, UnknownEscape, false, r)
    ensures r.Matched? ==>
      var m := Match(UnknownEscape, lines[0], false).value;
      && ConsumesPrefix(lines, r, if |lines| >= 3 && HasCaret(lines[2]) then 3 else 1)
      && r.response == [Format(EscapedSpace, [Show(m.line), Show(m.file)]), EscapeSomething]
  {
    if lines == [] then Raises(IndexError)
    else
      match Match(UnknownEscape, lines[0], false)
      case None => Declined
      case Some(m) =>
        var response := [Format(EscapedSpace, [Show(m.line), Show(m.file)]), EscapeSomething];
        Matched(Take(lines, if |lines| >= 3 && HasCaret(lines[2]) then 3 else 1), response)
  }

  const NotAType := "You seem to be using `{}` on line {} of `{}` as though it's a type, even though it's not been defined as"
    + " one."
  const IncludeBool := "Did you forget `#include <cs50.h>` or `#include <stdbool.h>` atop `{}`?"
  const IncludeString := "Did you forget `#include <string.h>` atop `{}`?"
  const IncludeCs50 := "Did you forget `#include <cs50.h>` atop `{}`?"
  const MisspeltType := "Did you perhaps misspell `{}` or forget to `typedef` it?"

  /** The hint `unknown_type` gives for a type name it does not know. */
  function UnknownTypeHint(name: string, file: string): string
  {
    if name == "bool" then Format(IncludeBool, [file])
    else if name == "size_t" then Format(IncludeString, [file])
    else if name == "string" then Format(IncludeCs50, [file])
    else Format(MisspeltType, [name])
  }

  /** `unknown_type`: `define` and `include` are handed to `bad_define` and
      `bad_include`; any other name gets a hint about its header. */
  function UnknownType(lines: seq<string>): (r: Outcome)
    ensures Gated(lines, UnknownTypeName, false, r)
    ensures r.Matched? && Group(Match(UnknownTypeName, lines[0], false).value, 0) == "define" ==>
      r == ClangRulesA.BadDefine(lines)
    ensures r.Matched? && Group(Match(UnknownTypeName, lines[0], false).value, 0) == "include" ==>
      r == ClangRulesA.BadInclude(lines)
    ensures r.Matched? ==>
      var m := Match(UnknownTypeName, lines[0], false).value;
      var name := Group(m, 0);
      name != "define" && name != "include" ==>
        && ConsumesPrefix(lines, r, if |lines| >= 3 then 3 else 1)
        && r.response == [Format(NotAType, [name, Show(m.line), Show(m.file)]), UnknownTypeHint(name, Show(m.file))]
  {
    if lines == [] then Raises(IndexError)
    else
      match Match(UnknownTypeName, lines[0], false)
      case None => Declined
      case Some(m) =>
        var name := Group(m, 0);
        if name == "define" then DelegatedDefine(lines, m)
        else if name == "include" then DelegatedInclude(lines, m)
        else
          var response := [Format(NotAType, [name, Show(m.line), Show(m.file)]), UnknownTypeHint(name, Show(m.file))];
          Matched(Take(lines, if |lines| >= 3 then 3 else 1), response)
  }

  /** A type name captured as `kw` means the message starts with
      `unknown type name 'kw'`. */
  lemma CapturedTypeName(msg: string, kw: string)
    requires UnknownTypeName(msg).Some? && UnknownTypeName(msg).value[0].value == kw
    ensures StartsWith(msg, "unknown type name '" + kw + "'")
  {
    var n := |"unknown type name '"|;
    assert msg[..n + |kw| + 1] == msg[..n] + msg[n..n + |kw|] + msg[n + |kw|..n + |kw| + 1];
  }

  /** `bad_define(lines)` called from `unknown_type`: its own pattern
      matches the same line, so it does not decline. */
  function DelegatedDefine(lines: seq<string>, m: ClangMatch): (r: Outcome)
    requires lines != [] && Match(UnknownTypeName, lines[0], false) == Some(m) && Group(m, 0) == "define"
    ensures r == ClangRulesA.BadDefine(lines) && r.Matched?
  {
    DefineCaptured(lines, m);
    ClangRulesA.BadDefine(lines)
  }

  /** `bad_include(lines)` called from `unknown_type`. */
  function DelegatedInclude(lines: seq<string>, m: ClangMatch): (r: Outcome)
    requires lines != [] && Match(UnknownTypeName, lines[0], false) == Some(m) && Group(m, 0) == "include"
    ensures r == ClangRulesA.BadInclude(lines) && r.Matched?
  {
    IncludeCaptured(lines, m);
    ClangRulesA.BadInclude(lines)
  }

  /** A type name captured as `define` is a message `bad_define` matches. */
  lemma DefineCaptured(lines: seq<string>, m: ClangMatch)
    requires lines != [] && Match(UnknownTypeName, lines[0], false) == Some(m) && Group(m, 0) == "define"
    ensures Match(UnknownTypeDefine, lines[0], false).Some?
  {
    var msg := ParseHeader(lines[0]).value.message;
    CapturedTypeName(msg, "define");
    DefineSpelled();
    assert UnknownTypeDefine(msg).Some?;
  }

  /** A type name captured as `include` is a message `bad_include`
      matches. */
  lemma IncludeCaptured(lines: seq<string>, m: ClangMatch)
    requires lines != [] && Match(UnknownTypeName, lines[0], false) == Some(m) && Group(m, 0) == "include"
    ensures Match(UnknownTypeInclude, lines[0], false).Some?
  {
    var msg := ParseHeader(lines[0]).value.message;
    CapturedTypeName(msg, "include");
    IncludeSpelled();
    assert UnknownTypeInclude(msg).Some?;
  }

  lemma DefineSpelled()
    ensures "unknown type name '" + "define" + "'" == "unknown type name 'define'"
  {
  }

  lemma IncludeSpelled()
    ensures "unknown type name '" + "include" + "'" == "unknown type name 'include'"
  {
  }

  const MoreArguments := "You have more arguments in your formatted string on line {} of `{}` than you have"
    + " format codes."
  const CodesMatchArguments := "Make sure that the number of format codes equals the number of additional arguments."
  const AddOrRemove := "Try either adding format code(s) or removing argument(s)."

  /** `unused_arg_in_fmt_string` */
  function UnusedArgInFmtString(lines: seq<string>): (r: Outcome)
    ensures Gated(lines, DataArgumentNotUsed, false, r)
    ensures r.Matched? ==>
      var m := Match(DataArgumentNotUsed, lines[0], false).value;
      && ConsumesPrefix(lines, r, if |lines| >= 2 && '%' in lines[1] then 2 else 1)
      && r.response == [Format(MoreArguments, [Show(m.line), Show(m.file)]), CodesMatchArguments, AddOrRemove]
  {
    if lines == [] then Raises(IndexError)
    else
      match Match(DataArgumentNotUsed, lines[0], false)
      case None => Declined
      case Some(m) =>
        var response := [Format(MoreArguments, [Show(m.line), Show(m.file)]), CodesMatchArguments, AddOrRemove];
        Matched(Take(lines, if |lines| >= 2 && '%' in lines[1] then 2 else 1), response)
  }

  const NeverUsed := "It seems that the variable `{}` (declared on line {} of `{}`) is never used in your program. Try either removing"
    + " it altogether or using it."

  /** `unused_var` */
  function UnusedVar(lines: seq<string>): (r: Outcome)
    ensures Gated(lines, UnusedVariable, false, r)
    ensures r.Matched? ==>
      var m := Match(UnusedVariable, lines[0], false).value;
      ConsumesPrefix(lines, r, 1) && r.response == [Format(NeverUsed, [Group(m, 0), Show(m.line), Show(m.file)])]
  {
    if lines == [] then Raises(IndexError)
    else
      match Match(UnusedVariable, lines[0], false)
      case None => Declined
      case Some(m) => Matched(Take(lines, 1), [Format(NeverUsed, [Group(m, 0), Show(m.line), Show(m.file)])])
  }

  const UndeclaredName := "By \"undeclared identifier,\" `clang` means you've used a name `{}` on line {} of `{}` which hasn't been "
    + "defined."
  const DefinedInCs50 := "Did you forget to `#include <cs50.h>` (in which `{}` is defined) atop your "
    + "file?"
  const DeclareVariable := "If you mean to use `{}` as a variable, make sure to declare it by specifying its type, and "
    + "check that the variable name is spelled correctly."

  /** The names `use_of_undeclared_indentifier` knows the CS50 header for. */
  const Cs50Names: set<string> := {"true", "false", "bool", "string"}

  /** `use_of_undeclared_indentifier`: the next line is consumed when it
      mentions the file name. */
  function UseOfUndeclaredIdentifier(lines: seq<string>): (r: Outcome)
    ensures Gated(lines, UndeclaredIdentifier, false, r)
    ensures r.Matched? ==>
      var m := Match(UndeclaredIdentifier, lines[0], false).value;
      var name := Group(m, 0);
      && ConsumesPrefix(lines, r, if |lines| >= 2 && Contains(lines[1], Show(m.file)) then 2 else 1)
      && r.response == [Format(UndeclaredName, [name, Show(m.line), Show(m.file)]),
           if name in Cs50Names then Format(DefinedInCs50, [name]) else Format(DeclareVariable, [name])]
  {
    if lines == [] then Raises(IndexError)
    else
      match Match(UndeclaredIdentifier, lines[0], false)
      case None => Declined
      case Some(m) =>
        var name := Group(m, 0);
        var hint := if name in Cs50Names then Format(DefinedInCs50, [name]) else Format(DeclareVariable, [name]);
        var response := [Format(UndeclaredName, [name, Show(m.line), Show(m.file)]), hint];
        Matched(Take(lines, if |lines| >= 2 && Contains(lines[1], Show(m.file)) then 2 else 1), response)
  }

  const UsingVariable := "It looks like you're trying to use the variable `{}` on line {} of "
    + "`{}`."
  const NoValueYet := "However, on that line, the variable `{}` doesn't have a value yet."
  const AssignFirst := "Be sure to assign a value to `{}` before trying to access its value."

  /** `variable_uninitialized`: the next line is consumed when it mentions
      the variable. */
  function VariableUninitialized(lines: seq<string>): (r: Outcome)
    ensures Gated(lines, UninitializedHere, false, r)
    ensures r.Matched? ==>
      var m := Match(UninitializedHere, lines[0], false).value;
      var v := Group(m, 0);
      && ConsumesPrefix(lines, r, if |lines| >= 2 && Contains(lines[1], v) then 2 else 1)
      && r.response == [Format(UsingVariable, [v, Show(m.line), Show(m.file)]), Format(NoValueYet, [v]),
           Format(AssignFirst, [v])]
  {
    if lines == [] then Raises(IndexError)
    else
      match Match(UninitializedHere, lines[0], false)
      case None => Declined
      case Some(m) =>
        var v := Group(m, 0);
        var response := [Format(UsingVariable, [v, Show(m.line), Show(m.file)]), Format(NoValueYet, [v]),
          Format(AssignFirst, [v])];
        Matched(Take(lines, if |lines| >= 2 && Contains(lines[1], v) then 2 else 1), response)
  }

  const ReturningNamed := "It looks like your function, `{}`, is returning `{}` on line {} of `{}`, but its return type is"
    + " `void`."
  const ReturningUnnamed := "It looks like your function, `{}`, is returning a value on line {} of `{}`, but its return type is"
    + " `void`."
  const SureToReturn := "Are you sure you want to return a value?"

  /** `void_return`: quotes the value a run of tildes marks. */
  function VoidReturn(lines: seq<string>): (r: Outcome)
    ensures Gated(lines, VoidReturnsValue, false, r)
    ensures r.Matched? ==>
      var m := Match(VoidReturnsValue, lines[0], false).value;
      var value := UnderTildes(Window(lines, 1, 3));
      && ConsumesPrefix(lines, r, if value.Some? then 3 else 1)
      && r.response == [
           if value.Some? then Format(ReturningNamed, [Group(m, 0), value.value, Show(m.line), Show(m.file)])
           else Format(ReturningUnnamed, [Group(m, 0), Show(m.line), Show(m.file)]),
           SureToReturn]
  {
    if lines == [] then Raises(IndexError)
    else
      match Match(VoidReturnsValue, lines[0], false)
      case None => Declined
      case Some(m) =>
        var value := UnderTildes(Window(lines, 1, 3));
        if |lines| >= 3 && value.Some? then
          Matched(Take(lines, 3), [Format(ReturningNamed, [Group(m, 0), value.value, Show(m.line), Show(m.file)]),
            SureToReturn])
        else Matched(Take(lines, 1), [Format(ReturningUnnamed, [Group(m, 0), Show(m.line), Show(m.file)]), SureToReturn])
  }

  const FocusHere := "Not quite sure how to help, but focus your attention on line {} of `{}`!"

  /** `catch_all`: every line with a clang header is matched. */
  function CatchAll(lines: seq<string>): (r: Outcome)
    ensures r.Raises? <==> lines == []
    ensures r.Raises? ==> r.error == IndexError
    ensures lines != [] ==> (r.Declined? <==> ParseHeader(lines[0]).None?)
    ensures r.Matched? ==>
      var h := ParseHeader(lines[0]).value;
      ConsumesPrefix(lines, r, 1) && r.response == [Format(FocusHere, [h.line, h.file])]
  {
    if lines == [] then Raises(IndexError)
    else
      match Match(AnyMessage, lines[0], false)
      case None => Declined
      case Some(m) => Matched(Take(lines, 1), [Format(FocusHere, [Show(m.line), Show(m.file)])])
  }
}
