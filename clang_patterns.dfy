/** The regular expressions of the clang rules, each written out as a
    recogniser. A message pattern (a `Pattern`) is tried where the header
    of `_match` ends; a line test is `re.search` over one whole line. */
module ClangPatterns {
  import opened Text
  import opened ClangMatch

  // ---------------------------------------------------------------------
  // Building blocks of message patterns

  /** Escaped literal text `p`. */
  function Literal(m: string, p: string): (r: Option<Groups>)
    ensures r.Some? <==> StartsWith(m, p)
    ensures r.Some? ==> r.value == []
  {
    if StartsWith(m, p) then Some([]) else None
  }

  /** `pre(.*)suf` (with `min == 0`) or `pre(.+)suf` (with `min == 1`): the
      greedy capture ends at the last occurrence of `suf` that leaves it at
      least `min` characters. */
  function Greedy(m: string, pre: string, min: nat, suf: string): (r: Option<Groups>)
    ensures r.Some? <==> StartsWith(m, pre) && exists q :: |pre| + min <= q && OccursAt(m, suf, q)
    ensures r.Some? ==>
      && |r.value| == 1 && r.value[0].Some?
      && var g := r.value[0].value;
      && |g| >= min && |pre| + |g| <= |m| && m[|pre|..|pre| + |g|] == g
      && OccursAt(m, suf, |pre| + |g|)
      && forall q :: |pre| + |g| < q ==> !OccursAt(m, suf, q)
  {
    if !StartsWith(m, pre) then None
    else
      match LastAt(m, suf, |pre| + min, |m| - |suf|)
      case None => None
      case Some(q) => Some([Some(m[|pre|..q])])
  }

  predicate NotQuote(c: char) { c != '\'' }

  /** `pre([^']+)suf`, where `suf` begins with a quote: the capture is the
      maximal quote-free run after `pre`. */
  function Unquoted(m: string, pre: string, suf: string): (r: Option<Groups>)
    ensures r.Some? ==>
      && StartsWith(m, pre) && |r.value| == 1 && r.value[0].Some?
      && var g := r.value[0].value;
      && g != [] && '\'' !in g && |pre| + |g| <= |m| && m[|pre|..|pre| + |g|] == g && OccursAt(m, suf, |pre| + |g|)
    ensures StartsWith(m, pre) && r.None? ==>
      var n := Run(m, |pre|, NotQuote);
      n == 0 || !OccursAt(m, suf, |pre| + n)
  {
    if !StartsWith(m, pre) then None
    else
      var n := Run(m, |pre|, NotQuote);
      if n == 0 || !OccursAt(m, suf, |pre| + n) then None
      else
        var g := m[|pre|..|pre| + n];
        assert forall k :: 0 <= k < |g| ==> g[k] == m[|pre| + k];
        Some([Some(g)])
  }

  /** `pre(\d+)suf`, where `suf` does not begin with a digit. */
  function Digits(m: string, pre: string, suf: string): (r: Option<Groups>)
    ensures r.Some? ==>
      && StartsWith(m, pre) && |r.value| == 1 && r.value[0].Some?
      && var g := r.value[0].value;
      && g != [] && AllDigits(g) && |pre| + |g| <= |m| && m[|pre|..|pre| + |g|] == g && OccursAt(m, suf, |pre| + |g|)
    ensures StartsWith(m, pre) && r.None? ==>
      var n := Run(m, |pre|, IsDigit);
      n == 0 || !OccursAt(m, suf, |pre| + n)
  {
    if !StartsWith(m, pre) then None
    else
      var n := Run(m, |pre|, IsDigit);
      if n == 0 || !OccursAt(m, suf, |pre| + n) then None
      else Some([Some(m[|pre|..|pre| + n])])
  }

  // ---------------------------------------------------------------------
  // The message patterns, rule by rule

  function ArrayIndexPast(m: string): Option<Groups>
  {
    Digits(m, "array index ", " is past the end of the array")
  }

  function ArraySubscriptNotInt(m: string): Option<Groups>
  {
    Literal(m, "array subscript is not an integer")
  }

  function AssignmentAsCondition(m: string): Option<Groups>
  {
    Literal(m, "using the result of an assignment as a condition without parentheses")
  }

  function UnknownTypeDefine(m: string): Option<Groups>
  {
    Literal(m, "unknown type name 'define'")
  }

  function UnknownTypeInclude(m: string): Option<Groups>
  {
    Literal(m, "unknown type name 'include'")
  }

  function CompStrLiteral(m: string): Option<Groups>
  {
    Literal(m, "result of comparison against a string literal is unspecified")
  }

  function ConflictingTypesFor(m: string): Option<Groups>
  {
    Greedy(m, "conflicting types for '", 0, "'")
  }

  function ContinueNotInLoop(m: string): Option<Groups>
  {
    Literal(m, "'continue' statement not in loop statement")
  }

  /** `a(o1)?b(o2)?c`, tried in the regular expression's backtracking order
      (each optional group first taken, then left out). Neither group begins
      like the text that follows it, so a group is captured exactly when its
      text is present. */
  function Optionals(m: string, a: string, o1: string, b: string, o2: string, c: string): (r: Option<Groups>)
    requires o1 != [] && b != [] && o1[0] != b[0]
    requires o2 != [] && c != [] && o2[0] != c[0]
    ensures r.Some? <==>
      || StartsWith(m, a + o1 + b + o2 + c)
      || StartsWith(m, a + o1 + b + c)
      || StartsWith(m, a + b + o2 + c)
      || StartsWith(m, a + b + c)
    ensures r.Some? ==> |r.value| == 2
    ensures r.Some? ==> r.value[0] in {None, Some(o1)} && (r.value[0].Some? <==> OccursAt(m, o1, |a|))
    ensures r.Some? ==> r.value[1] in {None, Some(o2)} &&
                        (r.value[1].Some? <==> StartsWith(m, a + o1 + b + o2) || StartsWith(m, a + b + o2))
  {
    if StartsWith(m, a + o1 + b + o2 + c) then
      OccursAfter(m, a + o1 + b + o2, c);
      OccursAfter(m, a, o1);
      Some([Some(o1), Some(o2)])
    else if StartsWith(m, a + o1 + b + c) then
      OccursAfter(m, a, o1);
      NotBoth(m, a + o1 + b, c, o2);
      NotBoth(m, a, o1, b + o2);
      Some([Some(o1), None])
    else if StartsWith(m, a + b + o2 + c) then
      OccursAfter(m, a + b + o2, c);
      NotBoth(m, a, b + o2 + c, o1);
      Some([None, Some(o2)])
    else if StartsWith(m, a + b + c) then
      NotBoth(m, a, b + c, o1);
      NotBoth(m, a + b, c, o2);
      NotBoth(m, a, b + c, o1 + b + o2);
      Some([None, None])
    else None
  }

  /** A prefix `x + y` contains the prefix `x`. */
  lemma OccursAfter(m: string, x: string, y: string)
    requires StartsWith(m, x + y)
    ensures StartsWith(m, x) && OccursAt(m, y, |x|)
  {
    StartsWithAppend(m, x, y);
  }

  /** After a prefix `x`, `y` and `z` cannot both follow when their first
      characters differ. */
  lemma NotBoth(m: string, x: string, y: string, z: string)
    requires y != [] && z != [] && y[0] != z[0]
    requires StartsWith(m, x + y)
    ensures !StartsWith(m, x + z)
  {
    StartsWithAppend(m, x, y);
    StartsWithAppend(m, x, z);
    assert m[|x|] == m[|x|..|x| + |y|][0] == y[0];
  }

  /** `control (may )?reach(es)? end of non-void function` */
  function ControlReaches(m: string): (r: Option<Groups>)
    ensures r.Some? <==>
      || StartsWith(m, "control " + "may " + "reach" + "es" + " end of non-void function")
      || StartsWith(m, "control " + "may " + "reach" + " end of non-void function")
      || StartsWith(m, "control " + "reach" + "es" + " end of non-void function")
      || StartsWith(m, "control " + "reach" + " end of non-void function")
    ensures r.Some? ==> |r.value| == 2
    ensures r.Some? ==> r.value[0] in {None, Some("may ")} && (r.value[0].Some? <==> OccursAt(m, "may ", 8))
    ensures r.Some? ==> r.value[1] in {None, Some("es")} &&
                        (r.value[1].Some? <==> StartsWith(m, "control " + "may " + "reach" + "es") || StartsWith(m, "control " + "reach" + "es"))
  {
    Optionals(m, "control ", "may ", "reach", "es", " end of non-void function")
  }

  function DeclarationShadows(m: string): Option<Groups>
  {
    Literal(m, "declaration shadows a local variable")
  }

  function DivisionByZero(m: string): Option<Groups>
  {
    Literal(m, "division by zero is undefined")
  }

  function ExpectedBrace(m: string): Option<Groups>
  {
    Literal(m, "expected '}'")
  }

  function ExpectedParen(m: string): Option<Groups>
  {
    Literal(m, "expected ')'")
  }

  function ExpectedForSemiColon(m: string): Option<Groups>
  {
    Literal(m, "expected ';' in 'for' statement specifier")
  }

  function ExpectedIdentifierOrParen(m: string): Option<Groups>
  {
    Literal(m, "expected identifier or '('")
  }

  function ExpectedParenAfterIf(m: string): Option<Groups>
  {
    Literal(m, "expected '(' after 'if'")
  }

  function ExpectedParamDeclarator(m: string): Option<Groups>
  {
    Literal(m, "expected parameter declarator")
  }

  /** `expected ';' (?:after expression|at end of declaration|after do\/while statement)` */
  function ExpectedSemiColon(m: string): (r: Option<Groups>)
    ensures r.Some? <==>
      || StartsWith(m, "expected ';' after expression")
      || StartsWith(m, "expected ';' at end of declaration")
      || StartsWith(m, "expected ';' after do/while statement")
  {
    if || StartsWith(m, "expected ';' after expression")
       || StartsWith(m, "expected ';' at end of declaration")
       || StartsWith(m, "expected ';' after do/while statement")
    then Some([])
    else None
  }

  function ExpectedWhile(m: string): Option<Groups>
  {
    Literal(m, "expected 'while' in do/while loop")
  }

  function NotIntConstant(m: string): Option<Groups>
  {
    Literal(m, "expression is not an integer constant expression")
  }

  function ResultUnused(m: string): Option<Groups>
  {
    Literal(m, "expression result unused")
  }

  function ExtraTokensInclude(m: string): Option<Groups>
  {
    Literal(m, "extra tokens at end of #include directive")
  }

  function ExtraneousBrace(m: string): Option<Groups>
  {
    Literal(m, "extraneous closing brace ('}')")
  }

  function ExtraneousParen(m: string): Option<Groups>
  {
    Literal(m, "extraneous ')' before ';'")
  }

  function FileNotFound(m: string): Option<Groups>
  {
    Greedy(m, "'", 0, "' file not found")
  }

  predicate NotColon(c: char) { c != ':' }

  /** `pre[^:]+mid[^:]+'`. Everything after `pre` up to the closing
      quote lies in one colon-free run, so the earliest `mid` leaves the
      most room for the second part. */
  function ColonFreePair(m: string, pre: string, mid: string): (r: Option<Groups>)
    ensures r.Some? <==>
      && StartsWith(m, pre)
      && exists q, q2 ::
        && |pre| < q && q + |mid| < q2 < |m| && OccursAt(m, mid, q) && OccursAt(m, "'", q2)
        && forall k :: |pre| <= k < q2 ==> m[k] != ':'
    ensures r.Some? ==> r.value == []
  {
    if !StartsWith(m, pre) then None
    else
      var e := |pre| + Run(m, |pre|, NotColon);
      match FindFrom(m, mid, |pre| + 1)
      case None => None
      case Some(q) =>
        if q + |mid| >= e then None
        else
          match LastAt(m, "'", q + |mid| + 1, e - 1)
          case None => None
          case Some(q2) => Some([])
  }

  /** `format specifies type '[^:]+' but the argument has type '[^:]+'` */
  function FormatSpecifiesType(m: string): (r: Option<Groups>)
    ensures r.Some? <==>
      && StartsWith(m, "format specifies type '")
      && exists q, q2 ::
        && 23 < q && q + 29 < q2 < |m| && OccursAt(m, "' but the argument has type '", q) && OccursAt(m, "'", q2)
        && forall k :: 23 <= k < q2 ==> m[k] != ':'
    ensures r.Some? ==> r.value == []
  {
    ColonFreePair(m, "format specifies type '", "' but the argument has type '")
  }

  function FormatNotLiteral(m: string): Option<Groups>
  {
    Literal(m, "format string is not a string literal")
  }

  /** `(if statement|while loop|for loop) has empty body` */
  function EmptyBody(m: string): (r: Option<Groups>)
    ensures r.Some? <==>
      || StartsWith(m, "if statement" + " has empty body")
      || StartsWith(m, "while loop" + " has empty body")
      || StartsWith(m, "for loop" + " has empty body")
    ensures r.Some? ==> |r.value| == 1 && r.value[0].Some?
    ensures r.Some? ==>
      var kind := r.value[0].value;
      && (kind == "if statement" || kind == "while loop" || kind == "for loop")
      && StartsWith(m, kind + " has empty body")
  {
    if StartsWith(m, "if statement" + " has empty body") then Some([Some("if statement")])
    else if StartsWith(m, "while loop" + " has empty body") then Some([Some("while loop")])
    else if StartsWith(m, "for loop" + " has empty body") then Some([Some("for loop")])
    else None
  }

  function IgnoringReturnValue(m: string): Option<Groups>
  {
    Greedy(m, "ignoring return value of function declared with ", 1, " attribute")
  }

  function ImplicitDeclaration(m: string): Option<Groups>
  {
    Unquoted(m, "implicit declaration of function '", "' is invalid")
  }

  function ImplicitLibraryFunction(m: string): Option<Groups>
  {
    Unquoted(m, "implicitly declaring library function '", "'")
  }

  /** `pre(.+)mid(.+)suf`. The second group ends at the last `suf`; the
      first at the last `mid` that still leaves the second group a
      character, which is where backtracking from the greedy first group
      settles. */
  function GreedyPair(m: string, pre: string, mid: string, suf: string): (r: Option<Groups>)
    ensures r.Some? <==>
      StartsWith(m, pre) && exists p, q :: |pre| < p && p + |mid| < q && OccursAt(m, mid, p) && OccursAt(m, suf, q)
    ensures r.Some? ==> |r.value| == 2 && r.value[0].Some? && r.value[1].Some?
    ensures r.Some? ==>
      var g1 := r.value[0].value;
      var g2 := r.value[1].value;
      var p := |pre| + |g1|;
      var q := p + |mid| + |g2|;
      && g1 != [] && g2 != [] && q + |suf| <= |m|
      && m == pre + g1 + mid + g2 + suf + m[q + |suf|..]
      && (forall k :: q < k ==> !OccursAt(m, suf, k))
      && (forall k :: p < k < q - |mid| ==> !OccursAt(m, mid, k))
  {
    if !StartsWith(m, pre) then None
    else
      match LastAt(m, suf, |pre| + |mid| + 2, |m| - |suf|)
      case None => None
      case Some(q) =>
        match LastAt(m, mid, |pre| + 1, q - |mid| - 1)
        case None => None
        case Some(p) =>
          SplitThree(m, pre, p, mid, q, suf);
          Some([Some(m[|pre|..p]), Some(m[p + |mid|..q])])
  }

  /** A text with `pre` at the start, `mid` at `p` and `suf` at `q` is
      those three with the text between them. */
  lemma SplitThree(m: string, pre: string, p: nat, mid: string, q: nat, suf: string)
    requires StartsWith(m, pre) && |pre| <= p && OccursAt(m, mid, p) && p + |mid| <= q && OccursAt(m, suf, q)
    ensures m == pre + m[|pre|..p] + mid + m[p + |mid|..q] + suf + m[q + |suf|..]
  {
    assert m == m[..|pre|] + m[|pre|..p] + m[p..p + |mid|] + m[p + |mid|..q] + m[q..q + |suf|] + m[q + |suf|..];
  }

  /** `incompatible (.+) to (.+) conversion` */
  function IncompatibleConversion(m: string): (r: Option<Groups>)
    ensures r.Some? <==>
      StartsWith(m, "incompatible ") && exists p, q :: 13 < p && p + 4 < q && OccursAt(m, " to ", p) && OccursAt(m, " conversion", q)
    ensures r.Some? ==> |r.value| == 2 && r.value[0].Some? && r.value[1].Some?
    ensures r.Some? ==>
      var from := r.value[0].value;
      var to := r.value[1].value;
      && from != [] && to != []
      && 28 + |from| + |to| <= |m|
      && m == "incompatible " + from + " to " + to + " conversion" + m[28 + |from| + |to|..]
      && (forall k :: 17 + |from| + |to| < k ==> !OccursAt(m, " conversion", k))
      && (forall k :: 13 + |from| < k < 13 + |from| + |to| ==> !OccursAt(m, " to ", k))
  {
    GreedyPair(m, "incompatible ", " to ", " conversion")
  }

  const OutOfBoundsTail := " out of bounds for type '"

  /** `.+'` at `i`: a closing quote with at least one character before it. */
  function QuoteAfterType(m: string, i: nat): (r: bool)
    ensures r <==> exists q :: i < q && OccursAt(m, "'", q)
  {
    LastAt(m, "'", i + 1, |m| - 1).Some?
  }

  /** `-?\d+`: digits, possibly after one minus sign. */
  predicate SignedDigits(g: string)
  {
    g != [] && if g[0] == '-' then |g| >= 2 && AllDigits(g[1..]) else AllDigits(g)
  }

  /** `index (-?\d+) out of bounds for type '.+'`. A `-` is taken when
      present (leaving it out would leave no digit); the digit run must be
      maximal because the tail begins with a space; the `.+` leaves at least
      one character between the opening and the closing quote. */
  function IndexOutOfBounds(m: string): (r: Option<Groups>)
    ensures r.Some? ==> StartsWith(m, "index ") && |r.value| == 1 && r.value[0].Some?
    ensures r.Some? ==>
      var g := r.value[0].value;
      && |g| + 6 <= |m| && m[6..6 + |g|] == g && SignedDigits(g)
      && OccursAt(m, OutOfBoundsTail, 6 + |g|)
      && QuoteAfterType(m, 6 + |g| + |OutOfBoundsTail|)
    ensures StartsWith(m, "index ") && r.None? ==>
      var sign := if 6 < |m| && m[6] == '-' then 1 else 0;
      var n := Run(m, 6 + sign, IsDigit);
      || n == 0
      || !OccursAt(m, OutOfBoundsTail, 6 + sign + n)
      || !QuoteAfterType(m, 6 + sign + n + |OutOfBoundsTail|)
  {
    if !StartsWith(m, "index ") then None
    else
      var sign := if 6 < |m| && m[6] == '-' then 1 else 0;
      var n := Run(m, 6 + sign, IsDigit);
      var after := 6 + sign + n;
      if n == 0 || !OccursAt(m, OutOfBoundsTail, after) then None
      else if !QuoteAfterType(m, after + |OutOfBoundsTail|) then None
      else
        SignedRun(m, sign, n);
        Some([Some(m[6..after])])
  }

  /** An empty type name `''` is declined: `.+` needs a character between
      the quotes. */
  lemma EmptyTypeDeclined(d: string)
    requires d != [] && AllDigits(d)
    ensures IndexOutOfBounds("index " + d + OutOfBoundsTail + "'") == None
  {
    var m := "index " + d + OutOfBoundsTail + "'";
    assert m[6] == d[0];
    assert m[6 + |d|] == ' ';
    RunStops(m, 6, IsDigit, |d|);
    assert |m| == 6 + |d| + |OutOfBoundsTail| + 1;
  }

  /** Every message of the shape `index <digits> out of bounds for type
      '<type>'` with a non-empty type is matched, with the digits as the
      group. */
  lemma TypeAccepted(m: string, d: string)
    requires StartsWith(m, "index ") && d != [] && AllDigits(d) && OccursAt(m, d, 6)
    requires OccursAt(m, OutOfBoundsTail, 6 + |d|)
    requires QuoteAfterType(m, 6 + |d| + |OutOfBoundsTail|)
    ensures IndexOutOfBounds(m) == Some([Some(d)])
  {
    assert m[6] == d[0] != '-';
    assert m[6 + |d|] == OutOfBoundsTail[0] == ' ';
    assert forall k :: 6 <= k < 6 + |d| ==> m[k] == m[6..6 + |d|][k - 6] == d[k - 6];
    RunStops(m, 6, IsDigit, |d|);
  }

  /** The minus sign, when there is one, and the digit run after it form a
      signed number. */
  lemma SignedRun(m: string, sign: nat, n: nat)
    requires 0 < n && 6 + sign + n <= |m|
    requires sign == (if m[6] == '-' then 1 else 0)
    requires forall k :: 6 + sign <= k < 6 + sign + n ==> IsDigit(m[k])
    ensures SignedDigits(m[6..6 + sign + n])
  {
    var g := m[6..6 + sign + n];
    if sign == 1 {
      assert g[1..] == m[7..7 + n];
    } else {
      assert g[0] == m[6];
    }
  }

  function AddingToString(m: string): Option<Groups>
  {
    Greedy(m, "adding '", 1, "' to a string does not append to the string")
  }

  /** `invalid '==' at end of declaration; did you mean '='?`: the `?` makes
      the closing quote optional, so the text before it is all that must be
      present. */
  function InvalidEquals(m: string): Option<Groups>
  {
    Literal(m, "invalid '==' at end of declaration; did you mean '=")
  }

  function InvalidDirective(m: string): Option<Groups>
  {
    Literal(m, "invalid preprocessing directive")
  }

  function MainReturnsInt(m: string): Option<Groups>
  {
    Literal(m, "'main' must return 'int'")
  }

  /** `.+ \(.+\)'` at the start of `s`: some ` (` after the first character,
      then some `)'` at least one character later. */
  predicate FunctionTypeTail(s: string)
  {
    match FindFrom(s, " (", 1)
    case None => false
    case Some(a) => FindFrom(s, ")'", a + 3).Some?
  }

  /** `' from incompatible type '.+ \(.+\)'` at `k`. */
  predicate FromFunctionType(m: string, k: nat)
  {
    k + 26 <= |m| && OccursAt(m, "' from incompatible type '", k) && FunctionTypeTail(m[k + 26..])
  }

  /** The largest `k` with `lo <= k <= hi` at which `FromFunctionType`
      holds. */
  function LastFromFunctionType(m: string, lo: nat, hi: int): (r: Option<nat>)
    ensures r.Some? ==> lo <= r.value <= hi && FromFunctionType(m, r.value)
    ensures r.Some? ==> forall k :: r.value < k <= hi ==> !FromFunctionType(m, k)
    ensures r.None? ==> forall k :: lo <= k <= hi ==> !FromFunctionType(m, k)
    decreases hi - lo + 1
  {
    if hi < lo then None
    else if FromFunctionType(m, hi) then Some(hi)
    else LastFromFunctionType(m, lo, hi - 1)
  }

  /** `assigning to '(.+)' from incompatible type '.+ \(.+\)'`: the greedy
      group ends at the last `' from incompatible type '` after which the
      rest of the pattern still matches. */
  function AssigningFromFunction(m: string): (r: Option<Groups>)
    ensures r.Some? ==> StartsWith(m, "assigning to '") && |r.value| == 1 && r.value[0].Some?
    ensures r.Some? ==>
      var g := r.value[0].value;
      && g != [] && 14 + |g| <= |m| && m[14..14 + |g|] == g
      && FromFunctionType(m, 14 + |g|)
      && forall k :: 14 + |g| < k <= |m| ==> !FromFunctionType(m, k)
    ensures StartsWith(m, "assigning to '") && r.None? ==> forall k :: 15 <= k <= |m| ==> !FromFunctionType(m, k)
  {
    var pre := "assigning to '";
    if !StartsWith(m, pre) then None
    else
      match LastFromFunctionType(m, |pre| + 1, |m|)
      case None => None
      case Some(q) => Some([Some(m[|pre|..q])])
  }

  function MoreConversions(m: string): Option<Groups>
  {
    Literal(m, "more '%' conversions than data arguments")
  }

  function UnsequencedModifications(m: string): Option<Groups>
  {
    Greedy(m, "multiple unsequenced modifications to '", 0, "'")
  }

  function OneParamOnMain(m: string): Option<Groups>
  {
    Literal(m, "only one parameter on 'main' declaration")
  }

  function RelationalUnused(m: string): Option<Groups>
  {
    Literal(m, "relational comparison result unused")
  }

  function SecondParamOfMain(m: string): Option<Groups>
  {
    Literal(m, "second parameter of 'main' (argument array) must be of type 'char **'")
  }

  function SelfInitialization(m: string): Option<Groups>
  {
    Greedy(m, "variable '", 1, "' is uninitialized when used within its own initialization")
  }

  function SubscriptedValue(m: string): Option<Groups>
  {
    Literal(m, "subscripted value is not an array, pointer, or vector")
  }

  /** `pre(\d+)mid(\d+)`, where `mid` does not begin with a digit: both
      groups are maximal digit runs. */
  function DigitsPair(m: string, pre: string, mid: string): (r: Option<Groups>)
    ensures r.Some? ==> |r.value| == 2 && r.value[0].Some? && r.value[1].Some?
    ensures r.Some? ==>
      var g1 := r.value[0].value;
      var g2 := r.value[1].value;
      && g1 != [] && AllDigits(g1) && g2 != [] && AllDigits(g2)
      && StartsWith(m, pre + g1 + mid + g2)
      && |g1| == Run(m, |pre|, IsDigit)
      && |g2| == Run(m, |pre| + |g1| + |mid|, IsDigit)
    ensures StartsWith(m, pre) && r.None? ==>
      var n := Run(m, |pre|, IsDigit);
      n == 0 || !OccursAt(m, mid, |pre| + n) || Run(m, |pre| + n + |mid|, IsDigit) == 0
  {
    match Digits(m, pre, mid)
    case None => None
    case Some(g) =>
      var g1 := g[0].value;
      var at := |pre| + |g1| + |mid|;
      var n := Run(m, at, IsDigit);
      if n == 0 then None
      else
        var g2 := m[at..at + n];
        StartsWithFour(m, pre, g1, mid, g2);
        Some([Some(g1), Some(g2)])
  }

  /** Four pieces, each where the previous one ends, make a prefix. */
  lemma StartsWithFour(m: string, a: string, b: string, c: string, d: string)
    requires StartsWith(m, a) && OccursAt(m, b, |a|) && OccursAt(m, c, |a| + |b|) && OccursAt(m, d, |a| + |b| + |c|)
    ensures StartsWith(m, a + b + c + d)
  {
    StartsWithAppend(m, a, b);
    StartsWithAppend(m, a + b, c);
    StartsWithAppend(m, a + b + c, d);
  }

  const TooManyPrefix := "too many arguments to function call, expected "

  /** `too many arguments to function call, expected (\d+), have (\d+)` */
  function TooManyArguments(m: string): (r: Option<Groups>)
    ensures r.Some? ==> |r.value| == 2 && r.value[0].Some? && r.value[1].Some?
    ensures r.Some? ==>
      var expected := r.value[0].value;
      var have := r.value[1].value;
      && expected != [] && AllDigits(expected) && have != [] && AllDigits(have)
      && StartsWith(m, TooManyPrefix + expected + ", have " + have)
      && |expected| == Run(m, 46, IsDigit)
      && |have| == Run(m, 53 + |expected|, IsDigit)
    ensures StartsWith(m, TooManyPrefix) && r.None? ==>
      var n := Run(m, 46, IsDigit);
      n == 0 || !OccursAt(m, ", have ", 46 + n) || Run(m, 53 + n, IsDigit) == 0
  {
    DigitsPair(m, TooManyPrefix, ", have ")
  }

  function TypeSpecifierMissing(m: string): Option<Groups>
  {
    Literal(m, "type specifier missing, defaults to 'int'")
  }

  predicate NotQuoteOrSpace(c: char) { c != '\'' && c != ' ' }

  /** `undefined reference to \`([^']+)'`, tried at one position of a raw
      search. */
  function UndefinedReference(s: string): Option<Groups>
  {
    Unquoted(s, "undefined reference to `", "'")
  }

  function UnknownEscape(m: string): Option<Groups>
  {
    Literal(m, "unknown escape sequence '\\ '")
  }

  function UnknownTypeName(m: string): Option<Groups>
  {
    Greedy(m, "unknown type name '", 1, "'")
  }

  function DataArgumentNotUsed(m: string): Option<Groups>
  {
    Literal(m, "data argument not used by format string")
  }

  function UnusedVariable(m: string): Option<Groups>
  {
    Unquoted(m, "unused variable '", "'")
  }

  function UndeclaredIdentifier(m: string): Option<Groups>
  {
    Unquoted(m, "use of undeclared identifier '", "'")
  }

  function UninitializedHere(m: string): Option<Groups>
  {
    Greedy(m, "variable '", 0, "' is uninitialized when used here")
  }

  function VoidReturnsValue(m: string): Option<Groups>
  {
    Greedy(m, "void function '", 1, "' should not return a value")
  }

  /** `.*` matches every message. */
  function AnyMessage(m: string): (r: Option<Groups>)
    ensures r == Some([])
  {
    Some([])
  }

  // ---------------------------------------------------------------------
  // Tests on whole lines

  /** `kw\s*\(` at position `k`. */
  predicate KeywordParenAt(line: string, kw: string, k: nat)
  {
    OccursAt(line, kw, k) &&
    var e := k + |kw| + Run(line, k + |kw|, IsSpace);
    e < |line| && line[e] == '('
  }

  /** `re.search(kw + r"\s*\(", line)` from position `from` on. */
  function FindKeywordParen(line: string, kw: string, from: nat): (r: bool)
    ensures r <==> exists k :: from <= k <= |line| && KeywordParenAt(line, kw, k)
    decreases |line| - from
  {
    if from > |line| then false
    else KeywordParenAt(line, kw, from) || FindKeywordParen(line, kw, from + 1)
  }

  /** `re.search(kw + r"\s*\(", line)` */
  predicate HasKeywordParen(line: string, kw: string)
  {
    FindKeywordParen(line, kw, 0)
  }

  /** `re.search(r"^\s*for\s*\(", line)` */
  predicate StartsForLoop(line: string)
  {
    KeywordParenAt(line, "for", Run(line, 0, IsSpace))
  }

  /** `re.search(r"^\s*" + c + "$", line)` for a single character `c`: the
      line is `c` after nothing but whitespace. */
  predicate AloneAfterSpace(line: string, c: char)
  {
    var n := Run(line, 0, IsSpace);
    n + 1 == |line| && line[n] == c
  }

  /** `re.search(r"^\s*\^", line)`: the first non-blank character is a caret. */
  predicate CaretFirst(line: string)
  {
    var n := Run(line, 0, IsSpace);
    n < |line| && line[n] == '^'
  }

  /** `re.search(r"^\s*\^\s*$", line)` */
  predicate CaretOnly(line: string)
  {
    var n := Run(line, 0, IsSpace);
    n < |line| && line[n] == '^' && n + 1 + Run(line, n + 1, IsSpace) == |line|
  }

  /** `re.search(r"^\s*~\s*\^\s*$", line)` */
  predicate TildeThenCaret(line: string)
  {
    var n := Run(line, 0, IsSpace);
    n < |line| && line[n] == '~' &&
    var c := n + 1 + Run(line, n + 1, IsSpace);
    c < |line| && line[c] == '^' && c + 1 + Run(line, c + 1, IsSpace) == |line|
  }

  /** A nonempty run of `n` characters satisfying `p` from `i`, followed
      by `sep`. */
  predicate FieldAt(s: string, i: nat, p: char -> bool, sep: string, n: nat)
  {
    0 < n && OccursAt(s, sep, i + n) && forall k :: i <= k < i + n ==> p(s[k])
  }

  /** `(p+)sep` at `i`: the maximal run of `p` from `i`, when it is
      nonempty and followed by `sep`. */
  function Field(s: string, i: nat, p: char -> bool, sep: string): (r: Option<nat>)
    ensures r.Some? ==> FieldAt(s, i, p, sep, r.value)
  {
    if |s| < i then None
    else
      var n := Run(s, i, p);
      if n > 0 && OccursAt(s, sep, i + n) then Some(n) else None
  }

  /** When `sep` cannot continue the run, at most one length fits, and
      `Field` finds it. */
  lemma FieldUnique(s: string, i: nat, p: char -> bool, sep: string, n: nat)
    requires sep != [] && !p(sep[0])
    requires FieldAt(s, i, p, sep, n)
    ensures Field(s, i, p, sep) == Some(n)
  {
    assert s[i + n] == s[i + n..i + n + |sep|][0];
    RunStops(s, i, p, n);
  }

  /** `line` reads `file:num:col: note: text` from its start, the file
      name `f` characters long, the line number `l` digits and the column
      `c` digits. */
  predicate NoteShape(line: string, text: string, f: nat, l: nat, c: nat)
  {
    && FieldAt(line, 0, NotColon, ":", f)
    && FieldAt(line, f + 1, IsDigit, ":", l)
    && FieldAt(line, f + l + 2, IsDigit, ": note: " + text, c)
  }

  /** The lengths of the file name, the line number and the column when
      `line` has the note shape. */
  function NoteFields(line: string, text: string): (r: Option<(nat, nat, nat)>)
    ensures r.Some? ==> NoteShape(line, text, r.value.0, r.value.1, r.value.2)
  {
    match Field(line, 0, NotColon, ":")
    case None => None
    case Some(f) =>
      match Field(line, f + 1, IsDigit, ":")
      case None => None
      case Some(l) =>
        match Field(line, f + l + 2, IsDigit, ": note: " + text)
        case None => None
        case Some(c) =>
          Some((f, l, c))
  }

  /** `re.search(r"^([^:]+):(\d+):\d+: note: " + text, line)`: the file
      and line of a clang note. */
  function NoteLine(line: string, text: string): (r: Option<(string, string)>)
    ensures r.Some? ==>
      var (file, num) := r.value;
      && (exists c: nat :: NoteShape(line, text, |file|, |num|, c))
      && file == line[..|file|] && num == line[|file| + 1..|file| + 1 + |num|]
  {
    match NoteFields(line, text)
    case None => None
    case Some((f, l, c)) =>
      var file := line[..f];
      var num := line[f + 1..f + 1 + l];
      assert NoteShape(line, text, |file|, |num|, c);
      Some((file, num))
  }

  /** The note shape fixes the lengths of both groups. */
  lemma NoteFieldsShape(line: string, text: string, f: nat, l: nat, c: nat)
    requires NoteShape(line, text, f, l, c)
    ensures NoteFields(line, text) == Some((f, l, c))
  {
    FieldUnique(line, 0, NotColon, ":", f);
    FieldUnique(line, f + 1, IsDigit, ":", l);
    FieldUnique(line, f + l + 2, IsDigit, ": note: " + text, c);
  }

  /** Every line of the note shape is a note, with the file and line
      number the shape delimits. */
  lemma NoteLineShape(line: string, text: string, f: nat, l: nat, c: nat)
    requires NoteShape(line, text, f, l, c)
    ensures NoteLine(line, text) == Some((line[..f], line[f + 1..f + 1 + l]))
  {
    NoteFieldsShape(line, text, f, l, c);
  }

  /** `re.search(r"(--|\+\+)", line)`: the leftmost operator, `--` winning
      when both start at the same place. */
  function IncrementOperator(line: string, from: nat): (r: Option<string>)
    ensures r.Some? ==> r.value in {"--", "++"}
    ensures r.Some? ==>
      exists k0 ::
        && from <= k0 && OccursAt(line, r.value, k0)
        && (r.value == "++" ==> !OccursAt(line, "--", k0))
        && forall k :: from <= k < k0 ==> !OccursAt(line, "--", k) && !OccursAt(line, "++", k)
    ensures r.None? ==> forall k :: from <= k ==> !OccursAt(line, "--", k) && !OccursAt(line, "++", k)
    decreases |line| - from
  {
    if from + 2 > |line| then None
    else if OccursAt(line, "--", from) then Some("--")
    else if OccursAt(line, "++", from) then Some("++")
    else IncrementOperator(line, from + 1)
  }

  /** `re.search(r"^([^' ]+)", line)` */
  function Directive(line: string): (r: Option<string>)
    ensures r.Some? ==> r.value != [] && StartsWith(line, r.value)
    ensures r.Some? ==> forall k :: 0 <= k < |r.value| ==> NotQuoteOrSpace(r.value[k])
    ensures r.None? <==> line == [] || !NotQuoteOrSpace(line[0])
  {
    var n := Run(line, 0, NotQuoteOrSpace);
    if n == 0 then None else Some(line[..n])
  }

  /** `s` begins with a call of a `printf` or `scanf` variant: a word of
      `n` characters ending in one of those names, spaces up to `e`, and an
      opening parenthesis at `e`. */
  predicate CallShape(s: string, n: nat, e: nat)
  {
    && n <= e < |s| && s[e] == '('
    && (forall k :: 0 <= k < n ==> IsWordChar(s[k]))
    && (forall k :: n <= k < e ==> IsSpace(s[k]))
    && (EndsWith(s[..n], "printf") || EndsWith(s[..n], "scanf"))
  }

  /** `(\w*printf|\w*scanf)\s*\(` tried at the start of `s`. A `\w*` run
      cannot stop before the end of a word and still be followed by
      `\s*\(`, so the name is the whole word, which must end in `printf`
      (tried first) or `scanf`. */
  function PrintfCall(s: string): (r: Option<Groups>)
    ensures r.Some? ==> |r.value| == 1 && r.value[0].Some?
    ensures r.Some? ==>
      var name := r.value[0].value;
      && StartsWith(s, name) && (forall k :: 0 <= k < |name| ==> IsWordChar(name[k]))
      && (EndsWith(name, "printf") || EndsWith(name, "scanf"))
      && exists e: nat :: CallShape(s, |name|, e)
  {
    var n := Run(s, 0, IsWordChar);
    var e := n + Run(s, n, IsSpace);
    if e < |s| && s[e] == '(' && (EndsWith(s[..n], "printf") || EndsWith(s[..n], "scanf")) then
      assert CallShape(s, n, e);
      Some([Some(s[..n])])
    else None
  }

  /** Every call shape is recognised, with the whole word as the name. */
  lemma PrintfCallShape(s: string, n: nat, e: nat)
    requires CallShape(s, n, e)
    ensures PrintfCall(s) == Some([Some(s[..n])])
  {
    assert !IsWordChar(s[n]) by {
      if n < e { assert IsSpace(s[n]); } else { assert s[n] == '('; }
    }
    RunStops(s, 0, IsWordChar, n);
    assert !IsSpace(s[e]);
    RunStops(s, n, IsSpace, e - n);
  }

  predicate EndsWith(s: string, p: string)
  {
    |p| <= |s| && s[|s| - |p|..] == p
  }
}
