# help50 diagnostic matching, modelled in Dafny

help50 reads the output of a command a student ran (`clang`, `make`,
`valgrind`, a Python program, `flask run`, a crashed `./a.out`). It breaks
that output into lines and offers those lines to a registry of *helpers*. A
helper either declines (returns `None`) or recognises some leading lines of
the output. When it recognises them it returns the lines it accounts for
(the *consumed* lines) and a few lines of advice (the *response*).

The project models these helpers:

- **clang helpers** (`helpers/clang.py`). These cover the 56 rules in
  registration order and the four text helpers they share:
  - `_match` parses the `file:line:col: severity: message` header, or searches
    anywhere in the line in raw mode.
  - `_has_caret` recognises a caret line.
  - `_caret_extract` recovers the identifier a `^` points at.
  - `_tilde_extract` recovers the text above the first run of `~`.
- **valgrind helpers** (`helpers/valgrind.py`). These cover the seven Memcheck
  rules and `_frame_extract`. `_frame_extract` parses the stack frames that
  follow a message and guesses which frame is the student's own code.
- **Smaller rule sets.** These are `helpers/python.py`, `helpers/make.py`,
  `helpers/flask.py` and `helpers/a.py`.

A helper's result is an `Outcome`, defined in `text.dfy`:

- `Declined`
- `Matched(consumed, response)`
- `Raises(IndexError | ValueError)`, for the places where the Python code
  raises. These are `lines[0]` on empty output, `lines[1][column]` past the end
  of a line, and `locale.atoi` on a count with no digits.

Regular expressions are hand-written recognisers, one per pattern. Each follows
the pattern's greedy or lazy choices: `(.+)'` stops at the last quote that can
still close the match, and `(.+?)(?::(\d+))?\)` stops at the first `:digits)`
or `)`.

Code is modelled in the form the source has:

- Straight-line rules are functions. This covers every clang rule and the
  make, flask and `a` rules.
- Rules that scan the output with a loop are methods with loop invariants,
  each proved equal to a specification function. This covers every valgrind
  rule, both python rules, `_frame_extract` and `_tilde_extract`.
- Properties are stated on those specification functions.

## Model

| member | source | states |
|---|---|---|
| ClangMarkers.HasCaretIff | helpers/clang.py:1637-1639 | `_has_caret` holds exactly when the line has one `^` and every other character is a space or `~` |
| ClangMarkers.CaretColumn | helpers/clang.py:1627 | `lines[1].index("^")` on a caret line is the column of its only caret |
| ClangMarkers.WordFrom | helpers/clang.py:1629-1630 | `re.match("^([A-Za-z0-9_]+)", s[i:])`: a non-empty run of identifier characters starting at `i` that cannot be extended; None exactly when the character at `i` is missing or not an identifier character |
| ClangMarkers.WordBefore | helpers/clang.py:1631-1632 | `re.match("^.*?([A-Za-z0-9_]+)$", s[:e])`: the maximal identifier run ending at column `e` (clamped to the line); None exactly when the character before it is missing or not an identifier character |
| ClangMarkers.CaretExtract | helpers/clang.py:1619-1635 | None with fewer than two lines or no caret line; left-aligned, the maximal word of `lines[0]` starting at the caret column; right-aligned, the maximal word ending just before it; None exactly when there is no such word |
| ClangMarkers.CaretAt | helpers/clang.py:1625-1635 | below any source line, a caret line makes `_caret_extract` pick the word from (left-aligned) or before (right-aligned) the caret's column |
| ClangMarkers.CaretSymmetry | helpers/clang.py:1619-1635 | for any identifier token in a source line, a caret under its first character (left-aligned) or just past its last (right-aligned) recovers exactly that token, whatever spaces and tildes pad the caret line |
| ClangMarkers.CaretUnderFirst | helpers/clang.py:1629-1630 | left-aligned half of the round trip: a caret under a token's first character recovers the token |
| ClangMarkers.CaretPastLast | helpers/clang.py:1631-1632 | right-aligned half of the round trip: a caret just past a token's last character recovers the token |
| ClangMarkers.WordFromToken | helpers/clang.py:1630 | a maximal identifier token at column `c` is the word read from `c` |
| ClangMarkers.WordBeforeToken | helpers/clang.py:1632 | a maximal identifier token ending at column `c + n` is the word read before `c + n` |
| ClangMarkers.UnderTildes | helpers/clang.py:1666-1678 | Some exactly when there are two lines, `lines[1]` has a `~`, and `lines[0]` reaches the end of the first tilde run; the result is the text of `lines[0]` above that whole run (starts at the first `~`, covers only tildes, stops where they stop) |
| ClangMarkers.TildeExtract | helpers/clang.py:1666-1678 | the while loop that extends `length` over the tilde run computes exactly `UnderTildes` |
| ClangMarkers.TildeRoundTrip | helpers/clang.py:1666-1678 | a span of a source line underlined by `c` spaces and `n` tildes is recovered exactly, whatever follows the tildes |
| ClangMarkers.TildesAt | helpers/clang.py:1670-1678 | once the first tilde is at `c` and the run is `n` long, the text above it is `src[c:c+n]` |
| ClangMatch.ParseSeverity | helpers/clang.py:1652 | `(?:warning\|(?:fatal \|runtime )?error): ` is recognised only as one of the four severities followed by `: ` and the message |
| ClangMatch.ParseSeverityText | helpers/clang.py:1652 | every severity, followed by any message, is recognised with that message recovered |
| ClangMatch.ParseHeader | helpers/clang.py:1652-1653 | `^([^:\s]+):(\d+):\d+: <severity>: ` at the start of a line: what it recognises is a well-formed header (file without `:` or whitespace, digit line and column) |
| ClangMatch.RenderParse | helpers/clang.py:1652-1653 | a line whose header is recognised prints back as the same line from its parts: the parse loses nothing |
| ClangMatch.ParseRender | helpers/clang.py:1652-1653 | every well-formed header, printed the way clang prints it, is recognised with all its parts recovered |
| ClangMatch.Search | helpers/clang.py:1653 | `re.search` of a pattern: the leftmost start position at which the pattern matches, and None only when it matches at no position |
| ClangMatch.Match | helpers/clang.py:1645-1663 | non-raw, Some only with a header whose message the rule's pattern matches, returning the header's file and line and only the pattern's own groups; raw, the leftmost search anywhere in the line, with no file or line |
| ClangMatch.MatchRendered | helpers/clang.py:1652-1663 | a rendered diagnostic is matched exactly when its message matches the pattern, and its file and line come back |
| ClangPatterns.Literal | helpers/clang.py:1652 | an escaped literal message pattern matches exactly the messages that start with it, with no groups |
| ClangPatterns.Greedy | helpers/clang.py:189 | `pre(.*)suf` and `pre(.+)suf`: matches exactly when `suf` occurs at least `min` characters after `pre`, and the group ends at the last such occurrence |
| ClangPatterns.Unquoted | helpers/clang.py:1347 | `pre([^']+)suf`: the group is the quote-free run after `pre`, and the pattern fails when that run is empty or not followed by `suf` |
| ClangPatterns.Digits | helpers/clang.py:18 | `pre(\d+)suf`: the group is the digit run after `pre`, and the pattern fails when that run is empty or not followed by `suf` |
| ClangPatterns.ControlReaches | helpers/clang.py:244 | `control (may )?reach(es)? end of non-void function` matches exactly the messages starting with one of its four spellings; the groups are `may ` and `es`, each present exactly when that spelling has it |
| ClangPatterns.Optionals | helpers/clang.py:244 | `a(o1)?b(o2)?c`, tried in backtracking order: matches exactly when one of the four spellings starts the message, and each group is captured exactly when its text is there |
| ClangPatterns.ExpectedSemiColon | helpers/clang.py:521 | matches exactly the three `expected ';' …` messages the rule lists |
| ClangPatterns.FormatSpecifiesType | helpers/clang.py:724 | matches exactly when the message starts with `format specifies type '`, continues with `' but the argument has type '` after at least one character, and reaches a later closing quote, with no colon anywhere from the first type to that quote (`[^:]+` on both parts) |
| ClangPatterns.ColonFreePair | helpers/clang.py:724 | `pre[^:]+mid[^:]+'`: matches exactly when `mid` and a closing quote follow `pre`, each after at least one character, inside one colon-free stretch |
| ClangPatterns.EmptyBody | helpers/clang.py:780 | matches exactly the messages starting with `if statement`, `while loop` or `for loop` followed by ` has empty body`, and the group is that kind |
| ClangPatterns.IncompatibleConversion | helpers/clang.py:913 | matches exactly when ` to ` and, later, ` conversion` follow `incompatible ` with room for both groups; the message spells `incompatible <from> to <to> conversion`, `<to>` ends at the last ` conversion` and `<from>` at the last ` to ` before it that leaves `<to>` a character |
| ClangPatterns.GreedyPair | helpers/clang.py:913 | `pre(.+)mid(.+)suf`: matches exactly when `mid` and then `suf` follow `pre` with a character before each; the message is the five parts in order, the second group ends at the last `suf`, and no later `mid` leaves the second group a character |
| ClangPatterns.IndexOutOfBounds | helpers/clang.py:937 | the group is a digit string, possibly with one leading minus, followed by ` out of bounds for type '`, then a non-empty type and a closing quote; when `index ` starts the message and nothing matches, the signed digit run is empty, the tail is missing, or no closing quote follows with a character before it |
| ClangPatterns.QuoteAfterType | helpers/clang.py:937 | `.+'`: true exactly when a closing quote stands at least one character past the position |
| ClangPatterns.EmptyTypeDeclined | helpers/clang.py:937 | an empty type name `''` is declined, since `.+` needs a character |
| ClangPatterns.TypeAccepted | helpers/clang.py:937 | every message of the pattern's shape with a non-empty type is matched, with the digits as the group |
| ClangPatterns.AssigningFromFunction | helpers/clang.py:1071 | the group is the assigned-to type, ending at the last `' from incompatible type '` that is followed by a function type `… (…)'`; when `assigning to '` starts the message and nothing matches, no such position exists |
| ClangPatterns.LastFromFunctionType | helpers/clang.py:1071 | the last position in a range where `' from incompatible type '` and a function type follow; None exactly when there is none |
| ClangPatterns.TooManyArguments | helpers/clang.py:1282 | both groups are maximal digit runs that the message spells back in place; when the prefix is there and nothing matches, the first run is empty, `, have ` does not follow it, or no digit follows that |
| ClangPatterns.DigitsPair | helpers/clang.py:1282 | `pre(\d+)mid(\d+)`: both groups are the maximal digit runs at their places and the message starts with `pre`, the first, `mid`, the second; when `pre` is there and nothing matches, one of those parts is missing |
| ClangPatterns.AnyMessage | helpers/clang.py:1606 | `.*` matches every message |
| ClangPatterns.FindKeywordParen | helpers/clang.py:425 | `re.search(kw + "\s*\(", line)`: true exactly when the keyword followed by optional spaces and `(` occurs somewhere |
| ClangPatterns.NoteLine | helpers/clang.py:301 | `^([^:]+):(\d+):\d+: note: <text>`: a match has the note shape (file, line number, column, then `: note: ` and the text) and returns the file and the line number as they stand in the line |
| ClangPatterns.Field | helpers/clang.py:301 | `(p+)sep`: a length found is a nonempty run of `p` followed by `sep` |
| ClangPatterns.FieldUnique | helpers/clang.py:301 | when `sep` cannot continue the run, every length with a `p` run followed by `sep` is the one `Field` finds |
| ClangPatterns.NoteFields | helpers/clang.py:301 | the three lengths found satisfy the note shape |
| ClangPatterns.NoteFieldsShape | helpers/clang.py:301 | a line of the note shape gives exactly those three lengths |
| ClangPatterns.NoteLineShape | helpers/clang.py:199 | every line of the note shape is a note, with the file and line number the shape delimits |
| ClangPatterns.IncrementOperator | helpers/clang.py:1140 | `(--\|\+\+)`: the operator found occurs at a position before which neither operator occurs, and it is `++` only when `--` does not start there; None exactly when neither occurs |
| ClangPatterns.Directive | helpers/clang.py:1022 | `^([^' ]+)`: a non-empty prefix without quote or space; None exactly when the line is empty or starts with one |
| ClangPatterns.PrintfCall | helpers/clang.py:760 | the name found is the whole word at the search position, ends in `printf` or `scanf`, and is followed by spaces and `(` |
| ClangPatterns.PrintfCallShape | helpers/clang.py:760 | every call shape (a word ending in `printf` or `scanf`, spaces, `(`) is recognised with that word as the name |
| ClangRulesA.ArrayBounds | helpers/clang.py:18-39 | declines exactly when `_match` fails (raises on no output); consumes 3 lines when a caret names the array, else 1; names the array and the index, then recalls 0-indexing |
| ClangRulesA.ArraySubscript | helpers/clang.py:52-77 | consumes 2 lines when the source line has `.` or `*`, else 1; names array and index when both are marked, adds the string-index hint as the middle line exactly when the index is a quoted string, and always ends with the `int` hint |
| ClangRulesA.AssignmentAsCondition | helpers/clang.py:91-103 | consumes the source line too exactly when it holds `if (`; suggests `==` at the diagnostic's line and file |
| ClangRulesA.BadDefine | helpers/clang.py:116-125 | consumes 3 lines when there are 3, else 1; suggests `#define` |
| ClangRulesA.BadInclude | helpers/clang.py:138-147 | consumes 3 lines when there are 3, else 1; suggests `#include` |
| ClangRulesA.CompStrLiteralUnspecified | helpers/clang.py:161-176 | consumes 3 lines exactly when the third is a caret line; the string-comparison advice |
| ClangRulesA.ConflictingTypes | helpers/clang.py:189-209 | with a previous-declaration note as the fourth line consumes 4 lines and says where the earlier declaration is (a line of the same file, or a library header by its last path component); else 1 line |
| ClangRulesA.ContinueNotInLoop | helpers/clang.py:222-231 | consumes 1 line; places `continue` at the diagnostic's line and file |
| ClangRulesA.ControlReachesNonVoid | helpers/clang.py:244-253 | consumes 1 line; the one fixed response |
| ClangRulesA.DeclarationShadowsLocalVar | helpers/clang.py:276-323 | a `for (` line is taken as commas for semicolons (2 or 3 lines); otherwise the advice names the earlier declaration when the note gives it, and consumes up to the note's caret line |
| ClangRulesA.DeclarationShadowsLocalVarAsWritten | helpers/clang.py:318-319 | with a note and its caret line, consumes `lines[0:7]` |
| ClangRulesA.ShadowsOverreach | helpers/clang.py:318-319 | with seven or more lines, a note and its caret on the sixth line, the code as written consumes seven lines where the diagnostic has six |
| ClangRulesA.ShadowsStaysInDiagnostic | helpers/clang.py:318-323 | the corrected rule never consumes more than six lines, and six only with the note and its caret line |
| ClangRulesE.DivByZero | helpers/clang.py:336-348 | consumes the source line when there is one; places the division at line and file |
| ClangRulesE.ExpectedClosingBrace | helpers/clang.py:361-369 | consumes 1 line; the brace advice printed as is (not a template) |
| ClangRulesE.ExpectedClosingParens | helpers/clang.py:382-404 | with a `to match this '('` note consumes 4 lines and points at the note's line, else 1 line and the diagnostic's own |
| ClangRulesE.ExpectedForSemiColonAsWritten | helpers/clang.py:420-422 | the response fills the line-number field with the file name |
| ClangRulesE.ExpectedForSemiColon | helpers/clang.py:416-428 | consumes 2 lines exactly when the next holds `for (`; the response names the line number |
| ClangRulesE.ForSemiColonNamesFile | helpers/clang.py:420-422 | for every such diagnostic whose file and line differ, the code as written prints the file where the line belongs, and its response differs from the corrected one |
| ClangRulesE.ExpectedIdentifierOrParens | helpers/clang.py:442-454 | consumes 1 line; the four-line advice about function boundaries |
| ClangRulesE.ExpectedIfOpenParens | helpers/clang.py:467-479 | consumes 2 lines exactly when the next holds `if (`; the parentheses advice |
| ClangRulesE.ExpectedParamDeclaratorRule | helpers/clang.py:492-507 | consumes 3 lines exactly when the third is a lone caret; two hints |
| ClangRulesE.ExpectedSemiColonRule | helpers/clang.py:521-534 | consumes 3 lines after a lone caret, 4 when a lone `;` follows it, else 1 |
| ClangRulesE.ExpectedWhileInDoWhile | helpers/clang.py:547-555 | consumes 1 line; asks for the `while` |
| ClangRulesE.ExpressionNotIntConst | helpers/clang.py:568-577 | consumes 2 lines when there are 2, else 1 |
| ClangRulesE.ExpressionResultUnused | helpers/clang.py:590-599 | consumes 1 line; two hints |
| ClangRulesE.ExtraTokensAtEndOfInclude | helpers/clang.py:612-630 | raises IndexError exactly on no output or when the caret's column is past the end of the source line; with a caret line consumes 2 lines and names the token under the caret (`;` gets its own hint), else 1 |
| ClangRulesE.ExtraneousClosingBrace | helpers/clang.py:643-654 | consumes 3 lines exactly when the third is caret-only |
| ClangRulesE.ExtraneousClosingParens | helpers/clang.py:667-679 | consumes 3 lines exactly when the third is a caret line |
| ClangRulesE.FileNotFoundInclude | helpers/clang.py:692-709 | consumes the source line when it holds `#include`; `studio.h` gets the `stdio.h` hint, any other file the spelling hint |
| ClangRulesF.FmtSpecifiesType | helpers/clang.py:724-739 | consumes 3 lines when the third has a `^`, 4 when the fourth also has a `%`, else 1 |
| ClangRulesF.FmtStringNotStringLiteral | helpers/clang.py:753-767 | matches exactly when a caret line follows and a `printf`/`scanf`-like call is found searching from just left of the caret onward; consumes 2 lines and names that call |
| ClangRulesF.HasEmptyBody | helpers/clang.py:780-792 | consumes 2 lines when the next holds `if (`; names the kind of statement |
| ClangRulesF.IgnoringReturnValueRule | helpers/clang.py:806-826 | consumes 3 lines and names the function when a caret marks it, else 1 |
| ClangRulesF.ImplicitDeclarationHints | helpers/clang.py:850-865 | CS50 input functions get `cs50.h`, `crypt` gets `unistd.h` and `_XOPEN_SOURCE`, `eprintf` its deprecation, any other name a header and a prototype hint |
| ClangRulesF.ImplicitDeclarationOfFun | helpers/clang.py:840-869 | consumes the source line when it mentions the function; response is the place, the name, then the hints for that name |
| ClangRulesF.ImplicitlyDeclaringLibFun | helpers/clang.py:883-898 | `printf` gets `stdio.h`, `malloc` gets `stdlib.h`, anything else a generic header hint |
| ClangRulesF.IncompatibleConversionRule | helpers/clang.py:913-926 | consumes 2 lines when the next has `=`; names the type converted to |
| ClangRulesF.IndexOutOfBoundsRule | helpers/clang.py:937-949 | answers exactly when the header and the pattern match (so an empty type is passed on to later rules); consumes 1 line; a negative index is before the start, any other past the end |
| ClangRulesF.NegativeIndex | helpers/clang.py:942 | `int(g) < 0` holds exactly for a minus sign followed by digits not all zero (`-0` is not negative) |
| ClangRulesF.InvalidAppendString | helpers/clang.py:961-976 | with a `printf(` on the next line consumes all lines and adds the format-code hint, else 1 line |
| ClangRulesF.InvalidEqualsRule | helpers/clang.py:990-999 | consumes 1 line; suggests `==` |
| ClangRulesF.InvalidPreprocessingDirectiveAsWritten | helpers/clang.py:1014-1017 | the first response fills the line-number field with the file name |
| ClangRulesF.InvalidPreprocessingDirective | helpers/clang.py:1012-1029 | consumes 2 lines and quotes the directive when the next line starts with one, else 1; the first response names the line number |
| ClangRulesF.DirectiveNamesFile | helpers/clang.py:1014-1017 | for every such diagnostic whose file and line differ, the code as written prints the file where the line belongs |
| ClangRulesF.MainMustReturnInt | helpers/clang.py:1043-1058 | consumes 3 lines and names the current return type when a caret marks it, else 1 |
| ClangRulesF.MissingParens | helpers/clang.py:1071-1089 | consumes 3 lines and names the function when tildes mark it, else 1 |
| ClangRulesF.MoreConversionsThanDataArgs | helpers/clang.py:1102-1114 | consumes 2 lines when the next has `%`; two hints |
| ClangRulesF.MultipleUnsequencedModifications | helpers/clang.py:1127-1147 | consumes 2 lines and suggests the operator alone when the next line has `++` or `--`, else 1 |
| ClangRulesO.OneParamOnMainDec | helpers/clang.py:1160-1170 | consumes 1 line; the `main` declaration hint |
| ClangRulesO.RelationalCompResUnused | helpers/clang.py:1185-1197 | consumes 3 lines exactly when the third is a caret line |
| ClangRulesO.SecondParamMainChar | helpers/clang.py:1210-1219 | consumes 1 line; two fixed hints |
| ClangRulesO.SelfInitializationRule | helpers/clang.py:1233-1246 | consumes 3 lines when the third is a `~ ^` marker; names the variable |
| ClangRulesO.SubscriptedValNotArray | helpers/clang.py:1260-1269 | consumes 1 line |
| ClangRulesO.TooManyArgsToFunCall | helpers/clang.py:1282-1305 | consumes 3 lines exactly when tildes mark the function name (and names it), else 1; the last hint says how many arguments to drop |
| ClangRulesO.SurplusOfCounts | helpers/clang.py:1300-1301 | the number of arguments to drop is `have - expected`, read from the two counts the message prints |
| ClangRulesO.TypeSpecifierMissingRule | helpers/clang.py:1318-1330 | consumes 3 lines exactly when the third is a lone caret |
| ClangRulesO.UndefinedReferenceHints | helpers/clang.py:1351-1378 | `main` gets the missing-`main` hint (and the helpers hint when `make` failed on them); any other symbol gets two hints and a linking hint chosen by the symbol |
| ClangRulesO.UndefinedReferenceRule | helpers/clang.py:1347-1380 | a raw search anywhere in the line; consumes 1 line and answers with the hints for the symbol |
| ClangRulesO.UndefinedReferenceFound | helpers/clang.py:1347 | any line `undefined reference to \`sym'` is recognised, with `sym` recovered |
| ClangRulesO.UnknownEscapeSequence | helpers/clang.py:1393-1407 | consumes 3 lines exactly when the third is a caret line |
| ClangRulesO.UnknownType | helpers/clang.py:1420-1443 | the names `define` and `include` are answered as `bad_define` and `bad_include` answer; any other name consumes 3 lines when there are 3 and gets the hint for that type |
| ClangRulesO.CapturedTypeName | helpers/clang.py:1420 | a captured type name `kw` means the message starts with `unknown type name 'kw'` |
| ClangRulesO.DelegatedDefine | helpers/clang.py:1424-1425 | the call `bad_define(lines)` does not decline on a line `unknown_type` captured as `define` |
| ClangRulesO.DelegatedInclude | helpers/clang.py:1426-1427 | the call `bad_include(lines)` does not decline on a line `unknown_type` captured as `include` |
| ClangRulesO.DefineCaptured | helpers/clang.py:1424-1425 | `bad_define`'s pattern matches every line `unknown_type` captures as `define` |
| ClangRulesO.IncludeCaptured | helpers/clang.py:1426-1427 | `bad_include`'s pattern matches every line `unknown_type` captures as `include` |
| ClangRulesO.UnusedArgInFmtString | helpers/clang.py:1456-1470 | consumes 2 lines when the next has `%`; three hints |
| ClangRulesO.UnusedVar | helpers/clang.py:1483-1492 | consumes 1 line; names the variable |
| ClangRulesO.UseOfUndeclaredIdentifier | helpers/clang.py:1505-1524 | consumes the next line when it mentions the file; CS50 names get the `cs50.h` hint, others the declaration hint |
| ClangRulesO.VariableUninitialized | helpers/clang.py:1537-1551 | consumes the next line when it mentions the variable; three hints naming it |
| ClangRulesO.VoidReturn | helpers/clang.py:1564-1585 | consumes 3 lines and quotes the value when tildes mark it, else 1 |
| ClangRulesO.CatchAll | helpers/clang.py:1606-1614 | declines exactly when the first line has no clang header, so it only fires on diagnostics; consumes exactly one line and points at the header's line and file |
| ClangRegistry.Dispatch | helpers/clang.py:7-1614 | the first rule in registration order that does not decline answers; declines only when every rule does |
| ClangRegistry.PrefixesA1 | helpers/clang.py:8-147 | each of these rules' matches consumes a non-empty prefix `lines[0:k]` of its input |
| ClangRegistry.PrefixesA2 | helpers/clang.py:151-323 | each of these rules' matches consumes a non-empty prefix of its input |
| ClangRegistry.PrefixesE1 | helpers/clang.py:327-534 | each of these rules' matches consumes a non-empty prefix of its input |
| ClangRegistry.PrefixesE2 | helpers/clang.py:538-709 | each of these rules' matches consumes a non-empty prefix of its input |
| ClangRegistry.PrefixesF1 | helpers/clang.py:714-949 | each of these rules' matches consumes a non-empty prefix of its input |
| ClangRegistry.PrefixesF2 | helpers/clang.py:953-1147 | each of these rules' matches consumes a non-empty prefix of its input, `invalid_append_string`'s `lines` included |
| ClangRegistry.PrefixesO1 | helpers/clang.py:1151-1380 | each of these rules' matches consumes a non-empty prefix of its input |
| ClangRegistry.PrefixesO2 | helpers/clang.py:1384-1614 | each of these rules' matches consumes a non-empty prefix of its input |
| ClangRegistry.RulesConsumePrefixes | helpers/clang.py:7-1614 | every registered clang rule consumes a prefix of the lines it is given |
| ClangRegistry.HelpEmpty | helpers/clang.py:18 | no output at all raises IndexError at the first rule's `lines[0]` |
| ClangRegistry.HelpAnswersHeaders | helpers/clang.py:1606-1614 | a first line in clang's diagnostic format is always answered, by `catch_all` at the latest |
| ClangRegistry.HelpConsumesPrefix | helpers/clang.py:7-1614 | whichever rule answers, it accounts for a non-empty prefix of the output and never more lines than there are |
| ValgrindFrames.AfterPid | helpers/valgrind.py:27 | `^==\d+==`: what follows is found only after a non-empty digit process id between `==` marks |
| ValgrindFrames.AfterPidPrefixed | helpers/valgrind.py:27 | whatever follows `==pid==`, it is recovered |
| ValgrindFrames.Tokens | helpers/valgrind.py:80-81 | a Memcheck message pattern of literals and `([\d,]+)` groups: the groups are comma-grouped counts, and the message is the pattern printed with them (exactly, when anchored by `$`) |
| ValgrindFrames.TokensRender | helpers/valgrind.py:80-81 | a message printed from counts is recognised with the same counts, for patterns whose groups are separated by text that does not start with a digit or comma |
| ValgrindFrames.LineSuffix | helpers/valgrind.py:332 | `:(\d+)\)` gives a non-empty digit line number that the line spells in place |
| ValgrindFrames.FileEnd | helpers/valgrind.py:332 | the lazy `(.+?)` stops at the first position where `:digits)` or `)` can follow |
| ValgrindFrames.CalleeEnd | helpers/valgrind.py:332 | the greedy `(.+) \(` ends at the last position from which the rest of the frame can still match |
| ValgrindFrames.FrameAfterPid | helpers/valgrind.py:332 | a frame line is `    at ` or `    by ` then the frame printed back; the address starts with `0x`; function and file are non-empty |
| ValgrindFrames.ParseFrame | helpers/valgrind.py:332-333 | a frame is recognised only after the `==pid==` prefix |
| ValgrindFrames.LeadingParsed | helpers/valgrind.py:331-337 | each line of the leading run parses to its frame, and the line after the run, if any, is not a frame line |
| ValgrindFrames.LeadingUnique | helpers/valgrind.py:331-337 | the leading run is the only frame list the first lines spell up to a non-frame line |
| ValgrindFrames.CollectLeading | helpers/valgrind.py:329-337 | the loop that appends parsed frames until a line does not parse computes exactly the leading run |
| ValgrindFrames.Reversed | helpers/valgrind.py:340 | `frames.reverse()`: same length, element `k` is element `n-1-k` of the original |
| ValgrindFrames.StopAt | helpers/valgrind.py:341-362 | the loop over adjacent pairs stops at the first pair that fires, or at the last frame when none does |
| ValgrindFrames.Infer | helpers/valgrind.py:341-366 | None exactly when there are no frames |
| ValgrindFrames.FrameExtract | helpers/valgrind.py:326-366 | `_frame_extract`'s loops compute the count of leading frame lines and the frame picked |
| ValgrindFrames.InnermostByDefault | helpers/valgrind.py:366 | when no pair fires (one frame included), the frame picked is the first frame parsed, the innermost call |
| ValgrindFrames.PicksCallerOfLibrary | helpers/valgrind.py:340-347 | for `malloc` in a shared library called from `foo.c:6` called from `foo.c:12`, the frame picked is `foo` |
| ValgrindFrames.FrameHints | helpers/valgrind.py:93-99 | no frame adds nothing; a frame with a line number points at that line and file; a frame without one names the function and asks for `-ggdb3` |
| ValgrindFrames.Report | helpers/valgrind.py:92-101 | a report consumes the message line and exactly the frame lines that follow it, a window of the output that starts at the message, and appends the hints for the frame picked |
| ValgrindFrames.ReportAt | helpers/valgrind.py:92-101 | running `_frame_extract` on the lines after the message yields exactly that report |
| ValgrindScan.Scan | helpers/valgrind.py:70-75 | raises on no output and declines without the Memcheck banner on the first line |
| ValgrindScan.ScanAnswersFirst | helpers/valgrind.py:75-101 | with the banner, a scan declines exactly when no line is a message, and otherwise answers at the first message line |
| ValgrindScan.FirstCount | helpers/valgrind.py:210 | the first group of a message is a comma-grouped count |
| ValgrindScan.CountedReport | helpers/valgrind.py:210-230 | raises ValueError exactly when the count has no digits; otherwise a window of the lines starting at the message |
| ValgrindScan.SummaryReport | helpers/valgrind.py:170-184 | declines exactly when there is no count or it is zero; raises ValueError exactly when it has no digits; otherwise consumes the one summary line |
| ValgrindRerun.CommandOf | helpers/valgrind.py:179 | `^==\d+== Command: ([^\n]+)$` gives a non-empty command after the process id |
| ValgrindRerun.CommandFromFirst | helpers/valgrind.py:179-182 | the command quoted is the one on the first `Command:` line that has a rerun hint somewhere after it, and None exactly when no such line exists |
| ValgrindFreed.FreedFrom | helpers/valgrind.py:31-49 | never raises; a match is three lines with `...` in the middle |
| ValgrindFreed.AllHeapBlocksFreedSpec | helpers/valgrind.py:26-49 | raises only on no output and declines without the banner |
| ValgrindFreed.PairFrom | helpers/valgrind.py:31-49 | a pair found is a line passing the first test followed, later, by a line passing the second |
| ValgrindFreed.FindPair | helpers/valgrind.py:31-42 | the nested loops find exactly the pair the specification names |
| ValgrindFreed.AllHeapBlocksFreed | helpers/valgrind.py:26-49 | the rule computes exactly the specification |
| ValgrindFreed.PairFromFinds | helpers/valgrind.py:31-42 | a pair exists exactly when a line passing the first test has a later line passing the second, and it starts at the first line passing the first test |
| ValgrindFreed.FreedFromAnswers | helpers/valgrind.py:31-49 | answers exactly when a "no leaks are possible" line is followed later by a clean error summary, and then quotes the first such line |
| ValgrindLeaks.LostCount | helpers/valgrind.py:80-81 | the first group of a loss record, with or without its direct and indirect parts, is a count |
| ValgrindLeaks.LostAnswer | helpers/valgrind.py:85-101 | never declines a loss record, and a report is a window starting at it; the only error is ValueError |
| ValgrindLeaks.BytesDefinitelyLostSpec | helpers/valgrind.py:70-101 | banner-gated; declines exactly when no line is a loss record and otherwise answers at the first one |
| ValgrindLeaks.BytesDefinitelyLost | helpers/valgrind.py:70-101 | the scan loop computes exactly the specification |
| ValgrindLeaks.LeakAnswer | helpers/valgrind.py:171-184 | never declines a summary line with a non-zero count, and consumes only that line |
| ValgrindLeaks.Append | helpers/valgrind.py:181-182 | appending to the response keeps the consumed lines and leaves non-matches as they are |
| ValgrindLeaks.DefinitelyLostSpec | helpers/valgrind.py:162-184 | banner-gated; answers at the first non-zero summary line and consumes only it |
| ValgrindLeaks.DefinitelyLost | helpers/valgrind.py:162-184 | the scan loop computes exactly the specification |
| ValgrindLeaks.LeakFound | helpers/valgrind.py:171-184 | the first summary line with a non-zero count is reported with the leak lines and the rerun hint |
| ValgrindLeaks.LeakRaises | helpers/valgrind.py:171 | a first summary line whose count has no digits raises ValueError |
| ValgrindAccess.JumpAnswer | helpers/valgrind.py:130-144 | a jump message is answered with the might-not-have-a-value line followed by the hints for the frame the traceback below it points at, and only that line is consumed, whatever frames follow |
| ValgrindAccess.JumpAnswers | helpers/valgrind.py:124-144 | every jump message line is answered, and the answer consumes that line alone, from where it stands |
| ValgrindAccess.ConditionalJumpDependsSpec | helpers/valgrind.py:119-144 | banner-gated, answers at the first jump message, consumes exactly one line, raises only on no output |
| ValgrindAccess.ConditionalJumpDepends | helpers/valgrind.py:119-144 | the scan loop computes exactly the specification |
| ValgrindAccess.ReadAnswer | helpers/valgrind.py:210-230 | never declines an invalid-read line; a report is a window starting at it |
| ValgrindAccess.InvalidReadSpec | helpers/valgrind.py:202-230 | banner-gated; answers at the first invalid read; on non-empty output raises only ValueError |
| ValgrindAccess.InvalidRead | helpers/valgrind.py:202-230 | the scan loop computes exactly the specification |
| ValgrindAccess.WriteAnswer | helpers/valgrind.py:256-276 | never declines an invalid-write line; a report is a window starting at it |
| ValgrindAccess.InvalidWriteSpec | helpers/valgrind.py:248-276 | banner-gated; answers at the first invalid write; on non-empty output raises only ValueError |
| ValgrindAccess.InvalidWrite | helpers/valgrind.py:248-276 | the scan loop computes exactly the specification |
| ValgrindAccess.UninitialisedAnswer | helpers/valgrind.py:302-319 | always answers an uninitialised-value line, never raises (the size is quoted, not parsed) |
| ValgrindAccess.UseOfUninitializedValSpec | helpers/valgrind.py:294-319 | banner-gated; answers at the first such line; raises only on no output |
| ValgrindAccess.UseOfUninitializedVal | helpers/valgrind.py:294-319 | the scan loop computes exactly the specification |
| Text.AtoiGrouped | helpers/valgrind.py:85 | `locale.atoi` recovers every count from the comma-grouped form valgrind prints |
| Text.FirstLine | helpers/python.py:20-29 | `for i, line in enumerate(lines)` stopping at the first match: the index found satisfies the test and no earlier line does; None exactly when no line does |
| PythonRules.UnsetVariable | helpers/python.py:56 | `^RuntimeError: (API_KEY\|API_SECRET) not set$`: the name is one of the two and the line is exactly the message naming it |
| PythonRules.UnsetVariableNames | helpers/python.py:56 | the message naming a variable is recognised exactly when the variable is `API_KEY` or `API_SECRET` |
| PythonRules.FirstAnswered | helpers/python.py:15-29 | raises only on no output; answers exactly when the first line is the traceback header and some line matches; consumes the first matching line |
| PythonRules.AddressAlreadyInUse | helpers/python.py:15-29 | the scan loop computes exactly the specification |
| PythonRules.AddressAlreadyInUseAnswers | helpers/python.py:15-29 | a traceback is answered exactly when it contains the address-in-use line, consuming that line with the two hints |
| PythonRules.EnvVarNotSet | helpers/python.py:49-65 | the scan loop computes exactly the specification |
| PythonRules.EnvVarNotSetReportsFirst | helpers/python.py:54-65 | the variable reported is the one on the first line that names either variable; no earlier line names one |
| PythonRules.ReportedLine | helpers/python.py:54-65 | the report consumes exactly the first line that names a variable |
| PythonRules.ReportedName | helpers/python.py:57-63 | the report names the variable on that line, in both hints |
| MakeRules.OnFirstLine | helpers/make.py:14-37 | raises only on no output; answers exactly when the first line is recognised, consuming only that line |
| MakeRules.NoRuleTarget | helpers/make.py:14-16 | the target is the longest non-empty text followed by `'.  Stop.`; None exactly when no such text exists |
| MakeRules.NoRuleTargetSpelled | helpers/make.py:14-16 | every target `make` names is read back |
| MakeRules.NoRuleToMake | helpers/make.py:14-37 | the four misspellings get `make caesar`, `caesar` gets the spelling hint, any other target the `<target>.c` and Makefile hints |
| MakeRules.MisspelledCaesar | helpers/make.py:18-23 | every misspelling of `caesar` is answered with the suggestion to run `make caesar` |
| MakeRules.NoTargetSpecified | helpers/make.py:48-58 | answers exactly when the first line starts with the no-targets message, then any one character (the unescaped `.`), then `  Stop` |
| MakeRules.NoTargetsAnyStop | helpers/make.py:48 | the character between the message and `  Stop` may be anything, not only a full stop |
| MakeRules.NothingToBeDoneName | helpers/make.py:69-71 | the name is quote-free and non-empty, after a backquote or quote, and followed by `.c'.`; None exactly when no such name exists |
| MakeRules.NothingToBeDoneSpelled | helpers/make.py:69-74 | `make foo.c` yields the name `foo` for any quote-free name |
| MakeRules.NothingToBeDone | helpers/make.py:69-77 | answers exactly when the name is found, suggesting `make <name>` |
| MakeRules.Success | helpers/make.py:88-94 | answers exactly for a single line that starts with `clang` and has no `error:`, consuming that line |
| MakeRules.UpToDateTarget | helpers/make.py:105-107 | the target is the longest non-empty text followed by `' is up to date.` |
| MakeRules.UpToDateSpelled | helpers/make.py:105-107 | every up-to-date target `make` names is read back |
| MakeRules.UpToDateRule | helpers/make.py:105-115 | answers exactly when the target is found, naming it in both hints |
| FlaskRules.OnThirdLine | helpers/flask.py:18-30 | raises only on no output; answers exactly when the first line contains the usage banner, there are three lines and the third is recognised; consumes three lines |
| FlaskRules.SecondLineIgnored | helpers/flask.py:18-30 | replacing the second line changes neither whether the rule answers nor its response |
| FlaskRules.DidNotProvideEnvVar | helpers/flask.py:18-30 | answers exactly when the third line mentions the missing `FLASK_APP` |
| FlaskRules.MissingPath | helpers/flask.py:44-53 | the path is the text between the first `Error: The file/path provided (` and the last `) does not appear to exist` after it; None exactly when no closing follows an opening with a character between |
| FlaskRules.MissingPathSpelled | helpers/flask.py:49-53 | the path flask reports is echoed back whatever text without `)` follows |
| FlaskRules.FilePathDoesNotExist | helpers/flask.py:44-56 | answers exactly when the third line reports a missing path, and echoes the path |
| ARules.OnPrefix | helpers/a.py:14-25 | raises only on no output; answers exactly when the first line starts with the text, consuming only that line |
| ARules.FloatingPointException | helpers/a.py:14-25 | answers exactly when the first line starts with `Floating point exception`; three response lines, the first about dividing by 0 |
| ARules.SegmentationFault | helpers/a.py:36-49 | answers exactly when the first line starts with `Segmentation fault`; six response lines, the first saying the program "isn't supposed to access" that memory |
| ARules.CrashesDisjoint | helpers/a.py:14-49 | no first line is taken for both crashes |

## Left out

- The helper dispatcher `help50.helper` is not part of this model. The clang
  registry assumes that it tries the rules in the order they are registered
  and takes the first that does not decline (`ClangRegistry.Dispatch`). The
  make, flask, `a`, python and valgrind rules are modelled one by one and not
  dispatched.
- `helpers/bash.py`, `ls.py`, `mv.py`, `cp.py` and `rm.py` are left out. Their
  patterns are built from definitions in modules that are not part of this
  model.
- `locale.setlocale` sets process-wide state and is left out. `locale.atoi` is
  modelled as English-locale parsing: the `,` separators are dropped, and a
  count with no digits raises ValueError.
- `\d`, `\s` and `\w` are taken in their ASCII sense.
- Lines carry no newline characters, so `.` matches any character and `$`
  matches only at the end of the line.
- ValgrindRerun.CommandOf: the DOTALL and MULTILINE search over the joined
  output in `definitely_lost` is modelled line by line. The result is the
  first `Command:` line that has a rerun hint on some later line. Across lines
  the greedy `.+` reaches the last hint, but the first qualifying `Command:`
  line is the same in both readings.
- `frames.reverse()` reverses a Python list in place. The model reassigns the
  reversed sequence instead.
- The commented-out `segmentation_fault_bool` in `helpers/a.py` is not live
  code and is left out.
- The English wording of the responses is modelled as format templates. The
  contracts quote templates and field values; they do not spell every finished
  sentence.
- `run_tests.py` only turns doctests into unit tests, and is left out.
- ClangRegistry: registers the corrected DeclarationShadowsLocalVar,
  ExpectedForSemiColon and InvalidPreprocessingDirective (see Findings), so
  Help, HelpAnswersHeaders and HelpConsumesPrefix describe the evidently
  intended dispatch. On a shadowing diagnostic the source as written consumes
  seven lines where Help consumes six; for the other two only the line shown
  in the response differs.

## Findings

| source | as written | input that shows it | evidently intended | confidence | as-written member | corrected member |
|---|---|---|---|---|---|---|
| helpers/clang.py:420-422 | `expected_for_semi_colon` fills "on line {}" with `matches.file` | `foo.c:5:16: error: expected ';' in 'for' statement specifier` gives "on line foo.c" | the line number, `matches.line` | high, not executed | ClangRulesE.ExpectedForSemiColonAsWritten | ClangRulesE.ExpectedForSemiColon |
| helpers/clang.py:1014-1017 | `invalid_preprocessing_directive` fills "on line {}" with `matches.file` | `foo.c:1:2: error: invalid preprocessing directive` gives "on line foo.c" | the line number, `matches.line` | high, not executed | ClangRulesF.InvalidPreprocessingDirectiveAsWritten | ClangRulesF.InvalidPreprocessingDirective |
| helpers/clang.py:318-319 | `declaration_shadows_local_var` returns `lines[0:7]` when the note's caret is `lines[5]` | a shadowing error, its source line, its caret, the note, the note's source line and caret, then a seventh line from the next diagnostic: seven lines are consumed | `lines[0:6]`, ending at the note's caret line | medium, not executed | ClangRulesA.DeclarationShadowsLocalVarAsWritten | ClangRulesA.DeclarationShadowsLocalVar |
