/** clang's diagnostic matcher (`_match` in helpers/clang.py): the fixed
    `file:line:col: severity: ` header, followed by a message pattern that
    each rule supplies. */
module ClangMatch {
  import opened Text

  /** The capture groups of a regular expression, `None` for a group that
      did not take part in the match. */
  type Groups = seq<Option<string>>

  /** A rule's message pattern: it is tried at the start of the string it is
      given (anything may follow what it matches) and yields its groups. */
  type Pattern = string -> Option<Groups>

  datatype Severity = Warning | Error | FatalError | RuntimeError

  function SeverityText(s: Severity): string
  {
    match s
    case Warning => "warning"
    case Error => "error"
    case FatalError => "fatal error"
    case RuntimeError => "runtime error"
  }

  /** The header of one clang diagnostic and the message text after it. */
  datatype Header = Header(file: string, line: string, column: string, severity: Severity, message: string)

  /** `[^:\s]` */
  predicate IsFileChar(c: char) { c != ':' && !IsSpace(c) }

  ghost predicate WellFormed(h: Header)
  {
    && h.file != [] && (forall i :: 0 <= i < |h.file| ==> IsFileChar(h.file[i]))
    && h.line != [] && AllDigits(h.line)
    && h.column != [] && AllDigits(h.column)
  }

  /** How clang prints a diagnostic's first line. */
  function Render(h: Header): string
  {
    h.file + (":" + (h.line + (":" + (h.column + (": " + (SeverityText(h.severity) + (": " + h.message)))))))
  }

  /** `word: ` at the start of `s`, and what follows it. */
  function Labelled(s: string, word: string): (r: Option<string>)
    ensures r.Some? <==> StartsWith(s, word + ": ")
    ensures r.Some? ==> s == word + (": " + r.value)
  {
    if StartsWith(s, word + ": ") then
      assert s == s[..|word| + 2] + s[|word| + 2..];
      Some(s[|word| + 2..])
    else None
  }

  lemma LabelledText(word: string, rest: string)
    ensures Labelled(word + (": " + rest), word) == Some(rest)
  {
    var s := word + (": " + rest);
    assert s[..|word| + 2] == word + ": " && s[|word| + 2..] == rest;
  }

  /** `(?:warning|(?:fatal |runtime )?error): ` at the start of `s`, and what
      follows it. */
  function ParseSeverity(s: string): (r: Option<(Severity, string)>)
    ensures r.Some? ==> s == SeverityText(r.value.0) + (": " + r.value.1)
  {
    if Labelled(s, SeverityText(Warning)).Some? then Some((Warning, Labelled(s, SeverityText(Warning)).value))
    else if Labelled(s, SeverityText(FatalError)).Some? then Some((FatalError, Labelled(s, SeverityText(FatalError)).value))
    else if Labelled(s, SeverityText(RuntimeError)).Some? then Some((RuntimeError, Labelled(s, SeverityText(RuntimeError)).value))
    else if Labelled(s, SeverityText(Error)).Some? then Some((Error, Labelled(s, SeverityText(Error)).value))
    else None
  }

  lemma ParseSeverityText(sev: Severity, msg: string)
    ensures ParseSeverity(SeverityText(sev) + (": " + msg)) == Some((sev, msg))
  {
    var s := SeverityText(sev) + (": " + msg);
    LabelledText(SeverityText(sev), msg);
    assert s[0] == SeverityText(sev)[0];
  }

  lemma SplitAt(s: string, k: nat, sep: string)
    requires OccursAt(s, sep, k)
    ensures s == s[..k] + (sep + s[k + |sep|..])
  {
  }

  lemma SplitChar(s: string, k: nat, ch: char)
    requires k < |s| && s[k] == ch
    ensures s == s[..k] + ([ch] + s[k + 1..])
  {
    assert s == s[..k] + s[k..];
  }

  lemma Unsplit(a: string, sep: string, rest: string)
    ensures var s := a + (sep + rest);
      s[..|a|] == a && OccursAt(s, sep, |a|) && s[|a| + |sep|..] == rest
  {
    var s := a + (sep + rest);
    assert s[|a|..|a| + |sep|] == sep;
  }

  /** `^([^:\s]+):(\d+):(\d+): (?:warning|(?:fatal |runtime )?error): `.
      Every repetition is followed by a character it cannot match, so each
      one takes its maximal run. A header that parses prints back as the
      line it was parsed from. */
  function ParseHeader(line: string): (r: Option<Header>)
    ensures r.Some? ==> WellFormed(r.value)
  {
    var f := Run(line, 0, IsFileChar);
    if f == 0 || f == |line| || line[f] != ':' then None
    else
      var rest1 := line[f + 1..];
      var l := Run(rest1, 0, IsDigit);
      if l == 0 || l == |rest1| || rest1[l] != ':' then None
      else
        var rest2 := rest1[l + 1..];
        var c := Run(rest2, 0, IsDigit);
        if c == 0 || !OccursAt(rest2, ": ", c) then None
        else
          var sev := ParseSeverity(rest2[c + 2..]);
          if sev.None? then None
          else Some(Header(LeadingRun(line, IsFileChar), LeadingRun(rest1, IsDigit), LeadingRun(rest2, IsDigit), sev.value.0, sev.value.1))
  }

  lemma Reassemble(line: string, f: nat, l: nat, c: nat, sev: Severity, msg: string)
    requires f < |line| && line[f] == ':'
    requires l < |line[f + 1..]| && line[f + 1..][l] == ':'
    requires OccursAt(line[f + 1..][l + 1..], ": ", c)
    requires line[f + 1..][l + 1..][c + 2..] == SeverityText(sev) + (": " + msg)
    ensures Render(Header(line[..f], line[f + 1..][..l], line[f + 1..][l + 1..][..c], sev, msg)) == line
  {
    var rest1 := line[f + 1..];
    var rest2 := rest1[l + 1..];
    SplitAt(rest2, c, ": ");
    SplitChar(rest1, l, ':');
    SplitChar(line, f, ':');
  }

  /** A header that parses prints back as the line it was parsed from. */
  lemma RenderParse(line: string)
    requires ParseHeader(line).Some?
    ensures Render(ParseHeader(line).value) == line
  {
    var f := Run(line, 0, IsFileChar);
    var rest1 := line[f + 1..];
    var l := Run(rest1, 0, IsDigit);
    var rest2 := rest1[l + 1..];
    var c := Run(rest2, 0, IsDigit);
    var h := ParseHeader(line).value;
    Reassemble(line, f, l, c, h.severity, h.message);
  }

  lemma UnsplitRun(a: string, sep: string, rest: string, p: char -> bool)
    requires forall i :: 0 <= i < |a| ==> p(a[i])
    requires sep != [] && !p(sep[0])
    ensures var s := a + (sep + rest);
      && Run(s, 0, p) == |a| && s[..|a|] == a && s[|a|] == sep[0]
      && OccursAt(s, sep, |a|) && s[|a| + |sep|..] == rest
  {
    var s := a + (sep + rest);
    Unsplit(a, sep, rest);
    assert s[|a|] == sep[0];
    RunStops(s, 0, p, |a|);
  }

  /** The three runs of the header stop at the separators that follow them,
      and what is left after the last one is the severity and message. */
  lemma ParseRuns(h: Header, rest1: string, rest2: string, rest3: string)
    requires WellFormed(h)
    requires rest3 == SeverityText(h.severity) + (": " + h.message)
    requires rest2 == h.column + (": " + rest3)
    requires rest1 == h.line + (":" + rest2)
    ensures Run(Render(h), 0, IsFileChar) == |h.file| && Render(h)[..|h.file|] == h.file
    ensures |h.file| < |Render(h)| && Render(h)[|h.file|] == ':' && Render(h)[|h.file| + 1..] == rest1
    ensures Run(rest1, 0, IsDigit) == |h.line| && rest1[..|h.line|] == h.line
    ensures |h.line| < |rest1| && rest1[|h.line|] == ':' && rest1[|h.line| + 1..] == rest2
    ensures Run(rest2, 0, IsDigit) == |h.column| && rest2[..|h.column|] == h.column
    ensures OccursAt(rest2, ": ", |h.column|) && rest2[|h.column| + 2..] == rest3
  {
    assert Render(h) == h.file + (":" + rest1);
    UnsplitRun(h.file, ":", rest1, IsFileChar);
    UnsplitRun(h.line, ":", rest2, IsDigit);
    UnsplitRun(h.column, ": ", rest3, IsDigit);
  }

  lemma ParseFromParts(line: string, rest1: string, rest2: string, rest3: string, h: Header)
    requires Run(line, 0, IsFileChar) == |h.file| && line[..|h.file|] == h.file && h.file != []
    requires |h.file| < |line| && line[|h.file|] == ':' && line[|h.file| + 1..] == rest1
    requires Run(rest1, 0, IsDigit) == |h.line| && rest1[..|h.line|] == h.line && h.line != []
    requires |h.line| < |rest1| && rest1[|h.line|] == ':' && rest1[|h.line| + 1..] == rest2
    requires h.column != []
    requires Run(rest2, 0, IsDigit) == |h.column| && rest2[..|h.column|] == h.column
    requires OccursAt(rest2, ": ", |h.column|) && rest2[|h.column| + 2..] == rest3
    requires ParseSeverity(rest3) == Some((h.severity, h.message))
    ensures ParseHeader(line) == Some(h)
  {
    var f := Run(line, 0, IsFileChar);
    assert f == |h.file|;
    assert line[f + 1..] == rest1;
    var l := Run(rest1, 0, IsDigit);
    assert l == |h.line|;
    var c := Run(line[f + 1..][l + 1..], 0, IsDigit);
    assert c == |h.column|;
  }

  /** Every well-formed header is recognised, with all its parts recovered. */
  lemma ParseRender(h: Header)
    requires WellFormed(h)
    ensures ParseHeader(Render(h)) == Some(h)
  {
    var rest3 := SeverityText(h.severity) + (": " + h.message);
    var rest2 := h.column + (": " + rest3);
    var rest1 := h.line + (":" + rest2);
    ParseRuns(h, rest1, rest2, rest3);
    ParseSeverityText(h.severity, h.message);
    ParseFromParts(Render(h), rest1, rest2, rest3, h);
  }

  /** What `_match` returns: the file and line of the header (None in raw
      mode) and the groups of the rule's own pattern, without the header's. */
  datatype ClangMatch = ClangMatch(file: Option<string>, line: Option<string>, group: Groups)

  /** `re.search` of a pattern: the leftmost start position, from `from`
      on, at which it matches. */
  function Search(pat: Pattern, s: string, from: nat): (r: Option<(nat, Groups)>)
    ensures r.Some? ==> from <= r.value.0 <= |s| && pat(s[r.value.0..]) == Some(r.value.1)
    ensures r.Some? ==> forall k :: from <= k < r.value.0 ==> pat(s[k..]).None?
    ensures r.None? ==> forall k :: from <= k <= |s| ==> pat(s[k..]).None?
    decreases |s| - from + 1
  {
    if from > |s| then None
    else if pat(s[from..]).Some? then Some((from, pat(s[from..]).value))
    else Search(pat, s, from + 1)
  }

  /** `_match(expression, line, raw)`. */
  function Match(pat: Pattern, line: string, raw: bool): (r: Option<ClangMatch>)
    ensures !raw && r.Some? ==>
      && ParseHeader(line).Some?
      && r.value.file == Some(ParseHeader(line).value.file)
      && r.value.line == Some(ParseHeader(line).value.line)
      && pat(ParseHeader(line).value.message) == Some(r.value.group)
    ensures !raw && r.None? ==> ParseHeader(line).None? || pat(ParseHeader(line).value.message).None?
    ensures raw ==> (r.Some? <==> Search(pat, line, 0).Some?)
    ensures raw && r.Some? ==> r.value == ClangMatch(None, None, Search(pat, line, 0).value.1)
  {
    if raw then
      match Search(pat, line, 0)
      case None => None
      case Some((_, g)) => Some(ClangMatch(None, None, g))
    else
      match ParseHeader(line)
      case None => None
      case Some(h) =>
        match pat(h.message)
        case None => None
        case Some(g) => Some(ClangMatch(Some(h.file), Some(h.line), g))
  }

  /** A rendered diagnostic is matched exactly when its message matches the
      pattern, and the file and line it was rendered with come back. */
  lemma MatchRendered(pat: Pattern, h: Header)
    requires WellFormed(h)
    ensures Match(pat, Render(h), false).Some? <==> pat(h.message).Some?
    ensures Match(pat, Render(h), false).Some? ==>
      Match(pat, Render(h), false).value == ClangMatch(Some(h.file), Some(h.line), pat(h.message).value)
  {
    ParseRender(h);
  }

  /** `group[i]`, as `format` prints it. */
  function Group(m: ClangMatch, i: nat): string
  {
    if i < |m.group| then Show(m.group[i]) else ""
  }

  /** What every clang rule has in common: `lines[0]` raises on an empty
      list, and otherwise the rule declines exactly when its `_match` fails. */
  ghost predicate Gated(lines: seq<string>, pat: Pattern, raw: bool, r: Outcome)
  {
    && (r.Raises? <==> lines == [])
    && (r.Raises? ==> r.error == IndexError)
    && (lines != [] ==> (r.Declined? <==> Match(pat, lines[0], raw).None?))
  }
}
