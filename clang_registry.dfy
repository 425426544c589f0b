/** The clang rules registered in the order helpers/clang.py defines them,
    `catch_all` last, and the first-match dispatch over them.

    The registry and the dispatcher (`help50.helper`) are not part of this
    model's sources: the dispatch here is an explicit assumption, that the
    rules are tried in source order and the first one that does not decline
    decides the outcome. */
module ClangRegistry {
  import opened Text
  import opened ClangMatch
  import ClangRulesA
  import ClangRulesE
  import ClangRulesF
  import ClangRulesO

  type Rule = seq<string> -> Outcome

  /** The 56 clang rules in source order, module by module.
      `expected_for_semi_colon`, `invalid_preprocessing_directive` and
      `declaration_shadows_local_var` are in their corrected form. */
  const Rules: seq<Rule> := RulesA + RulesE + RulesF + RulesO

  const RulesA: seq<Rule> := [
    ClangRulesA.ArrayBounds,
    ClangRulesA.ArraySubscript,
    ClangRulesA.AssignmentAsCondition,
    ClangRulesA.BadDefine,
    ClangRulesA.BadInclude,
    ClangRulesA.CompStrLiteralUnspecified,
    ClangRulesA.ConflictingTypes,
    ClangRulesA.ContinueNotInLoop,
    ClangRulesA.ControlReachesNonVoid,
    ClangRulesA.DeclarationShadowsLocalVar]

  const RulesE: seq<Rule> := [
    ClangRulesE.DivByZero,
    ClangRulesE.ExpectedClosingBrace,
    ClangRulesE.ExpectedClosingParens,
    ClangRulesE.ExpectedForSemiColon,
    ClangRulesE.ExpectedIdentifierOrParens,
    ClangRulesE.ExpectedIfOpenParens,
    ClangRulesE.ExpectedParamDeclaratorRule,
    ClangRulesE.ExpectedSemiColonRule,
    ClangRulesE.ExpectedWhileInDoWhile,
    ClangRulesE.ExpressionNotIntConst,
    ClangRulesE.ExpressionResultUnused,
    ClangRulesE.ExtraTokensAtEndOfInclude,
    ClangRulesE.ExtraneousClosingBrace,
    ClangRulesE.ExtraneousClosingParens,
    ClangRulesE.FileNotFoundInclude]

  const RulesF: seq<Rule> := [
    ClangRulesF.FmtSpecifiesType,
    ClangRulesF.FmtStringNotStringLiteral,
    ClangRulesF.HasEmptyBody,
    ClangRulesF.IgnoringReturnValueRule,
    ClangRulesF.ImplicitDeclarationOfFun,
    ClangRulesF.ImplicitlyDeclaringLibFun,
    ClangRulesF.IncompatibleConversionRule,
    ClangRulesF.IndexOutOfBoundsRule,
    ClangRulesF.InvalidAppendString,
    ClangRulesF.InvalidEqualsRule,
    ClangRulesF.InvalidPreprocessingDirective,
    ClangRulesF.MainMustReturnInt,
    ClangRulesF.MissingParens,
    ClangRulesF.MoreConversionsThanDataArgs,
    ClangRulesF.MultipleUnsequencedModifications]

  const RulesO: seq<Rule> := [
    ClangRulesO.OneParamOnMainDec,
    ClangRulesO.RelationalCompResUnused,
    ClangRulesO.SecondParamMainChar,
    ClangRulesO.SelfInitializationRule,
    ClangRulesO.SubscriptedValNotArray,
    ClangRulesO.TooManyArgsToFunCall,
    ClangRulesO.TypeSpecifierMissingRule,
    ClangRulesO.UndefinedReferenceRule,
    ClangRulesO.UnknownEscapeSequence,
    ClangRulesO.UnknownType,
    ClangRulesO.UnusedArgInFmtString,
    ClangRulesO.UnusedVar,
    ClangRulesO.UseOfUndeclaredIdentifier,
    ClangRulesO.VariableUninitialized,
    ClangRulesO.VoidReturn,
    ClangRulesO.CatchAll]

  /** The outcome of the first rule, from `from` on, that does not decline. */
  function Dispatch(rules: seq<Rule>, lines: seq<string>, from: nat): (r: Outcome)
    ensures r.Declined? <==> forall i :: from <= i < |rules| ==> rules[i](lines).Declined?
    ensures !r.Declined? ==>
      exists i :: from <= i < |rules| && r == rules[i](lines) && forall j :: from <= j < i ==> rules[j](lines).Declined?
    decreases |rules| - from
  {
    if from >= |rules| then Declined
    else if !rules[from](lines).Declined? then rules[from](lines)
    else Dispatch(rules, lines, from + 1)
  }

  /** A rule whose every match accounts for a non-empty prefix of its input. */
  ghost predicate ConsumesPrefixes(rule: Rule)
  {
    forall lines :: rule(lines).Matched? ==>
      1 <= |rule(lines).consumed| <= |lines| && rule(lines).consumed == lines[..|rule(lines).consumed|]
  }

  /** The rules of ClangRulesA consume prefixes (first half). */
  lemma PrefixesA1()
    ensures ConsumesPrefixes(ClangRulesA.ArrayBounds)
    ensures ConsumesPrefixes(ClangRulesA.ArraySubscript)
    ensures ConsumesPrefixes(ClangRulesA.AssignmentAsCondition)
    ensures ConsumesPrefixes(ClangRulesA.BadDefine)
    ensures ConsumesPrefixes(ClangRulesA.BadInclude)
  {
  }

  /** The rules of ClangRulesA consume prefixes (second half). */
  lemma PrefixesA2()
    ensures ConsumesPrefixes(ClangRulesA.CompStrLiteralUnspecified)
    ensures ConsumesPrefixes(ClangRulesA.ConflictingTypes)
    ensures ConsumesPrefixes(ClangRulesA.ContinueNotInLoop)
    ensures ConsumesPrefixes(ClangRulesA.ControlReachesNonVoid)
    ensures ConsumesPrefixes(ClangRulesA.DeclarationShadowsLocalVar)
  {
  }

  /** The rules of ClangRulesE consume prefixes (first half). */
  lemma PrefixesE1()
    ensures ConsumesPrefixes(ClangRulesE.DivByZero)
    ensures ConsumesPrefixes(ClangRulesE.ExpectedClosingBrace)
    ensures ConsumesPrefixes(ClangRulesE.ExpectedClosingParens)
    ensures ConsumesPrefixes(ClangRulesE.ExpectedForSemiColon)
    ensures ConsumesPrefixes(ClangRulesE.ExpectedIdentifierOrParens)
    ensures ConsumesPrefixes(ClangRulesE.ExpectedIfOpenParens)
    ensures ConsumesPrefixes(ClangRulesE.ExpectedParamDeclaratorRule)
    ensures ConsumesPrefixes(ClangRulesE.ExpectedSemiColonRule)
  {
  }

  /** The rules of ClangRulesE consume prefixes (second half). */
  lemma PrefixesE2()
    ensures ConsumesPrefixes(ClangRulesE.ExpectedWhileInDoWhile)
    ensures ConsumesPrefixes(ClangRulesE.ExpressionNotIntConst)
    ensures ConsumesPrefixes(ClangRulesE.ExpressionResultUnused)
    ensures ConsumesPrefixes(ClangRulesE.ExtraTokensAtEndOfInclude)
    ensures ConsumesPrefixes(ClangRulesE.ExtraneousClosingBrace)
    ensures ConsumesPrefixes(ClangRulesE.ExtraneousClosingParens)
    ensures ConsumesPrefixes(ClangRulesE.FileNotFoundInclude)
  {
  }

  /** The rules of ClangRulesF consume prefixes (first half). */
  lemma PrefixesF1()
    ensures ConsumesPrefixes(ClangRulesF.FmtSpecifiesType)
    ensures ConsumesPrefixes(ClangRulesF.FmtStringNotStringLiteral)
    ensures ConsumesPrefixes(ClangRulesF.HasEmptyBody)
    ensures ConsumesPrefixes(ClangRulesF.IgnoringReturnValueRule)
    ensures ConsumesPrefixes(ClangRulesF.ImplicitDeclarationOfFun)
    ensures ConsumesPrefixes(ClangRulesF.ImplicitlyDeclaringLibFun)
    ensures ConsumesPrefixes(ClangRulesF.IncompatibleConversionRule)
    ensures ConsumesPrefixes(ClangRulesF.IndexOutOfBoundsRule)
  {
  }

  /** The rules of ClangRulesF consume prefixes (second half). */
  lemma PrefixesF2()
    ensures ConsumesPrefixes(ClangRulesF.InvalidAppendString)
    ensures ConsumesPrefixes(ClangRulesF.InvalidEqualsRule)
    ensures ConsumesPrefixes(ClangRulesF.InvalidPreprocessingDirective)
    ensures ConsumesPrefixes(ClangRulesF.MainMustReturnInt)
    ensures ConsumesPrefixes(ClangRulesF.MissingParens)
    ensures ConsumesPrefixes(ClangRulesF.MoreConversionsThanDataArgs)
    ensures ConsumesPrefixes(ClangRulesF.MultipleUnsequencedModifications)
  {
  }

  /** The rules of ClangRulesO consume prefixes (first half). */
  lemma PrefixesO1()
    ensures ConsumesPrefixes(ClangRulesO.OneParamOnMainDec)
    ensures ConsumesPrefixes(ClangRulesO.RelationalCompResUnused)
    ensures ConsumesPrefixes(ClangRulesO.SecondParamMainChar)
    ensures ConsumesPrefixes(ClangRulesO.SelfInitializationRule)
    ensures ConsumesPrefixes(ClangRulesO.SubscriptedValNotArray)
    ensures ConsumesPrefixes(ClangRulesO.TooManyArgsToFunCall)
    ensures ConsumesPrefixes(ClangRulesO.TypeSpecifierMissingRule)
    ensures ConsumesPrefixes(ClangRulesO.UndefinedReferenceRule)
  {
  }

  /** The rules of ClangRulesO consume prefixes (second half). */
  lemma PrefixesO2()
    ensures ConsumesPrefixes(ClangRulesO.UnknownEscapeSequence)
    ensures ConsumesPrefixes(ClangRulesO.UnknownType)
    ensures ConsumesPrefixes(ClangRulesO.UnusedArgInFmtString)
    ensures ConsumesPrefixes(ClangRulesO.UnusedVar)
    ensures ConsumesPrefixes(ClangRulesO.UseOfUndeclaredIdentifier)
    ensures ConsumesPrefixes(ClangRulesO.VariableUninitialized)
    ensures ConsumesPrefixes(ClangRulesO.VoidReturn)
    ensures ConsumesPrefixes(ClangRulesO.CatchAll)
  {
  }

  /** Every registered rule consumes a prefix of the lines it is given. */
  lemma RulesConsumePrefixes()
    ensures forall rule | rule in Rules :: ConsumesPrefixes(rule)
  {
    PrefixesA1();
    PrefixesA2();
    PrefixesE1();
    PrefixesE2();
    PrefixesF1();
    PrefixesF2();
    PrefixesO1();
    PrefixesO2();
  }

  /** What the clang helpers make of a block of output: the first
      registered rule that does not decline answers it. */
  function Help(lines: seq<string>): Outcome
  {
    Dispatch(Rules, lines, 0)
  }

  /** No output at all raises at the first rule's `lines[0]`. */
  lemma HelpEmpty()
    ensures Help([]) == Raises(IndexError)
  {
    assert Rules[0] == ClangRulesA.ArrayBounds;
  }

  /** A first line in clang's diagnostic format is always answered, by
      `catch_all` at the latest. */
  lemma HelpAnswersHeaders(lines: seq<string>)
    requires lines != [] && ParseHeader(lines[0]).Some?
    ensures !Help(lines).Declined?
  {
    assert Rules[|Rules| - 1] == ClangRulesO.CatchAll;
  }

  /** Whatever rule answers, a match accounts for a non-empty prefix of the
      output. */
  lemma HelpConsumesPrefix(lines: seq<string>)
    requires Help(lines).Matched?
    ensures var c := Help(lines).consumed; 1 <= |c| <= |lines| && c == lines[..|c|]
  {
    RulesConsumePrefixes();
    var i :| 0 <= i < |Rules| && Help(lines) == Rules[i](lines);
    assert Rules[i] in Rules;
  }
}
