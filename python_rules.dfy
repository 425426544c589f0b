/** The rules of helpers/python.py. Both check that the output is a Python
    traceback, then walk the lines in order and answer the first one that
    carries their error, consuming that line alone. */
module PythonRules {
  import opened Text

  const Traceback := "Traceback (most recent call last):"
  const AddressInUse := "OSError: [Errno 98] Address already in use"

  const AlreadyListening := "Another program is already listening on that port."
  const SameCommand := "Do you perhaps have this same command running in another tab?"
  const NotSet := "`{}`, an environment variable, doesn't appear to be set, at least not in this tab"
  const ExportHint := "Odds are you need to run `export {}=value`, where `value` is `{}`'s intended value."

  /** `^Traceback \(most recent call last\):$` */
  predicate IsTraceback(line: string) { line == Traceback }

  /** `^OSError: \[Errno 98\] Address already in use$` */
  predicate IsAddressInUse(line: string) { line == AddressInUse }

  /** The message `RuntimeError: <name> not set`. */
  function Unset(name: string): string
  {
    "RuntimeError: " + name + " not set"
  }

  /** The message gives its variable's name back. */
  lemma {:induction false} UnsetInjective(a: string, b: string)
    requires Unset(a) == Unset(b)
    ensures a == b
  {
    assert a == Unset(a)[14..|Unset(a)| - 8];
    assert b == Unset(b)[14..|Unset(b)| - 8];
  }

  /** `^RuntimeError: (API_KEY|API_SECRET) not set$`: the variable named. */
  function UnsetVariable(line: string): (r: Option<string>)
    ensures r.Some? ==> (r.value == "API_KEY" || r.value == "API_SECRET") && line == Unset(r.value)
  {
    if line == Unset("API_KEY") then Some("API_KEY")
    else if line == Unset("API_SECRET") then Some("API_SECRET")
    else None
  }

  /** The message names exactly the two variables the pattern allows. */
  lemma UnsetVariableNames(name: string)
    ensures UnsetVariable(Unset(name)) == if name == "API_KEY" || name == "API_SECRET" then Some(name) else None
  {
    if UnsetVariable(Unset(name)).Some? {
      UnsetInjective(name, UnsetVariable(Unset(name)).value);
    }
  }

  predicate NamesUnsetVariable(line: string) { UnsetVariable(line).Some? }

  /** What the rule makes of the output once the header has been checked:
      the first line that `p` accepts, answered by `respond`. */
  function FirstAnswered(lines: seq<string>, p: string -> bool, respond: string -> seq<string>): (r: Outcome)
    ensures r.Raises? <==> lines == []
    ensures r.Matched? <==> lines != [] && IsTraceback(lines[0]) && FirstLine(lines, p, 0).Some?
    ensures r.Matched? ==>
      var i := FirstLine(lines, p, 0).value;
      r.consumed == lines[i..i + 1] && r.response == respond(lines[i])
  {
    if lines == [] then Raises(IndexError)
    else if !IsTraceback(lines[0]) then Declined
    else match FirstLine(lines, p, 0)
      case None => Declined
      case Some(i) => Matched(lines[i..i + 1], respond(lines[i]))
  }

  function AddressInUseResponse(line: string): seq<string>
  {
    [AlreadyListening, SameCommand]
  }

  function AddressAlreadyInUseSpec(lines: seq<string>): Outcome
  {
    FirstAnswered(lines, IsAddressInUse, AddressInUseResponse)
  }

  /** `address_already_in_use`: the first line that reports the port
      taken. */
  method AddressAlreadyInUse(lines: seq<string>) returns (r: Outcome)
    ensures r == AddressAlreadyInUseSpec(lines)
  {
    if lines == [] {
      return Raises(IndexError);
    }
    if !IsTraceback(lines[0]) {
      return Declined;
    }
    var i := 0;
    while i < |lines|
      invariant i <= |lines| && FirstLine(lines, IsAddressInUse, i) == FirstLine(lines, IsAddressInUse, 0)
    {
      if lines[i] == AddressInUse {
        return Matched(lines[i..i + 1], [AlreadyListening, SameCommand]);
      }
      i := i + 1;
    }
    return Declined;
  }

  /** A traceback answers exactly when one of its lines reports the port
      taken, with that line and the two hints. */
  lemma AddressAlreadyInUseAnswers(lines: seq<string>)
    requires lines != [] && IsTraceback(lines[0])
    ensures AddressAlreadyInUseSpec(lines).Matched? <==> AddressInUse in lines
    ensures AddressAlreadyInUseSpec(lines).Matched? ==>
      AddressAlreadyInUseSpec(lines).consumed == [AddressInUse] &&
      AddressAlreadyInUseSpec(lines).response == [AlreadyListening, SameCommand]
  {
    if AddressInUse in lines {
      var k :| 0 <= k < |lines| && lines[k] == AddressInUse;
      assert IsAddressInUse(lines[k]);
    }
  }

  function EnvVarResponse(line: string): seq<string>
  {
    match UnsetVariable(line)
    case None => []
    case Some(name) => [Format(NotSet, [name]), Format(ExportHint, [name, name])]
  }

  function EnvVarNotSetSpec(lines: seq<string>): Outcome
  {
    FirstAnswered(lines, NamesUnsetVariable, EnvVarResponse)
  }

  /** `env_var_not_set`: the first line that names an unset API
      variable. */
  method EnvVarNotSet(lines: seq<string>) returns (r: Outcome)
    ensures r == EnvVarNotSetSpec(lines)
  {
    if lines == [] {
      return Raises(IndexError);
    }
    if !IsTraceback(lines[0]) {
      return Declined;
    }
    var i := 0;
    while i < |lines|
      invariant i <= |lines| && FirstLine(lines, NamesUnsetVariable, i) == FirstLine(lines, NamesUnsetVariable, 0)
    {
      var name := UnsetVariable(lines[i]);
      if name.Some? {
        assert FirstLine(lines, NamesUnsetVariable, i) == Some(i);
        assert EnvVarResponse(lines[i]) == [Format(NotSet, [name.value]), Format(ExportHint, [name.value, name.value])];
        return Matched(lines[i..i + 1], [Format(NotSet, [name.value]), Format(ExportHint, [name.value, name.value])]);
      }
      i := i + 1;
    }
    return Declined;
  }

  /** The variable reported is the one named first: no earlier line names
      either variable, and the response is about the variable on the line
      consumed. */
  lemma EnvVarNotSetReportsFirst(lines: seq<string>)
    requires EnvVarNotSetSpec(lines).Matched?
    ensures var r := EnvVarNotSetSpec(lines);
      exists i :: 0 <= i < |lines| && r.consumed == [lines[i]] &&
        (forall k :: 0 <= k < i ==> UnsetVariable(lines[k]).None?) &&
        UnsetVariable(lines[i]).Some? &&
        var name := UnsetVariable(lines[i]).value;
        r.response == [Format(NotSet, [name]), Format(ExportHint, [name, name])]
  {
    var i := FirstLine(lines, NamesUnsetVariable, 0).value;
    ReportedLine(lines, i);
    ReportedName(lines, i);
    assert forall k :: 0 <= k < i ==> !NamesUnsetVariable(lines[k]);
  }

  /** The report on the first line that names a variable consumes that
      line. */
  lemma ReportedLine(lines: seq<string>, i: nat)
    requires lines != [] && IsTraceback(lines[0]) && FirstLine(lines, NamesUnsetVariable, 0) == Some(i)
    ensures i < |lines| && EnvVarNotSetSpec(lines).consumed == [lines[i]]
  {
    AnsweredAt(lines, NamesUnsetVariable, EnvVarResponse, i);
  }

  /** That report is about the variable the line names. */
  lemma ReportedName(lines: seq<string>, i: nat)
    requires lines != [] && IsTraceback(lines[0]) && FirstLine(lines, NamesUnsetVariable, 0) == Some(i)
    ensures i < |lines| && UnsetVariable(lines[i]).Some?
    ensures var name := UnsetVariable(lines[i]).value;
      EnvVarNotSetSpec(lines).response == [Format(NotSet, [name]), Format(ExportHint, [name, name])]
  {
    AnsweredAt(lines, NamesUnsetVariable, EnvVarResponse, i);
    EnvVarResponseNames(lines[i], EnvVarNotSetSpec(lines).response);
  }

  /** The answer to the first line `p` accepts, read off that line. */
  lemma AnsweredAt(lines: seq<string>, p: string -> bool, respond: string -> seq<string>, i: nat)
    requires lines != [] && IsTraceback(lines[0]) && FirstLine(lines, p, 0) == Some(i)
    ensures var r := FirstAnswered(lines, p, respond);
      i < |lines| && r.consumed == [lines[i]] && r.response == respond(lines[i])
  {
    var r := FirstAnswered(lines, p, respond);
    assert r == Matched(lines[i..i + 1], respond(lines[i]));
    assert lines[i..i + 1] == [lines[i]];
  }

  /** The response names the variable the line names. */
  lemma EnvVarResponseNames(line: string, response: seq<string>)
    requires NamesUnsetVariable(line) && response == EnvVarResponse(line)
    ensures UnsetVariable(line).Some?
    ensures var name := UnsetVariable(line).value;
      response == [Format(NotSet, [name]), Format(ExportHint, [name, name])]
  {
  }
}
