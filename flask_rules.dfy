/** The rules of helpers/flask.py. Both recognise `flask run`'s usage
    banner on the first line, look for their error on the third, and
    consume the three lines. The second line is never looked at. */
module FlaskRules {
  import opened Text

  const Usage := "Usage: flask run [OPTIONS]"
  const NoFlaskApp := "You did not provide the FLASK_APP environment variable"
  const PathOpen := "Error: The file/path provided ("
  const PathClose := ") does not appear to exist"

  const NotSetHint := "Looks like `FLASK_APP`, which `flask` assumes is set, isn't set."
  const TryRunning := "If your application is in `application.py`, try running `FLASK_APP=application.py flask run`."
  const WrongDirectory := "Looks like you might have run `flask` in the wrong directory."
  const AreYouSure := "Are you sure `{}` exists in your current directory?"

  /** The usage banner on the first line, then `answer` on the third. */
  function OnThirdLine(lines: seq<string>, answer: string -> Option<seq<string>>): (r: Outcome)
    ensures r.Raises? <==> lines == []
    ensures r.Matched? <==> |lines| >= 3 && Contains(lines[0], Usage) && answer(lines[2]).Some?
    ensures r.Matched? ==> r.consumed == lines[..3] && r.response == answer(lines[2]).value
  {
    if lines == [] then Raises(IndexError)
    else if !Contains(lines[0], Usage) then Declined
    else if |lines| < 3 then Declined
    else match answer(lines[2])
      case None => Declined
      case Some(response) => Matched(lines[0..3], response)
  }

  /** The second line never decides anything: replacing it changes neither
      whether the rule answers nor how (the consumed window carries the new
      line, as it should). */
  lemma {:induction false} SecondLineIgnored(lines: seq<string>, other: string, answer: string -> Option<seq<string>>)
    requires |lines| >= 2
    ensures var r, s := OnThirdLine(lines, answer), OnThirdLine(lines[1 := other], answer);
      && r.Declined? == s.Declined?
      && r.Raises? == s.Raises?
      && (r.Matched? ==> s.Matched? && s.response == r.response && s.consumed == r.consumed[1 := other])
  {
    var changed := lines[1 := other];
    assert changed[0] == lines[0];
    if |lines| >= 3 {
      assert changed[2] == lines[2];
      assert changed[..3] == lines[..3][1 := other];
    }
  }

  // ---------------------------------------------------------------------
  // did_not_provide_env_var

  function EnvVarResponse(line: string): Option<seq<string>>
  {
    if Contains(line, NoFlaskApp) then Some([NotSetHint, TryRunning]) else None
  }

  /** `did_not_provide_env_var`: `flask run` without `FLASK_APP`. */
  function DidNotProvideEnvVar(lines: seq<string>): (r: Outcome)
    ensures r.Raises? <==> lines == []
    ensures r.Matched? <==> |lines| >= 3 && Contains(lines[0], Usage) && Contains(lines[2], NoFlaskApp)
    ensures r.Matched? ==> r.consumed == lines[..3] && r.response == [NotSetHint, TryRunning]
  {
    OnThirdLine(lines, EnvVarResponse)
  }

  // ---------------------------------------------------------------------
  // file_path_does_not_exist

  /** `Error: The file/path provided \((.+)\) does not appear to exist`,
      searched for anywhere in the line: the path between the leftmost
      opening and the last closing that follows it. */
  function MissingPath(line: string): (r: Option<string>)
    ensures r.None? <==>
      forall a: nat, e: nat :: OccursAt(line, PathOpen, a) && a + |PathOpen| < e ==> !OccursAt(line, PathClose, e)
    ensures r.Some? ==>
      && r.value != [] && FindFrom(line, PathOpen, 0).Some?
      && var b := FindFrom(line, PathOpen, 0).value + |PathOpen|;
      && b + |r.value| <= |line| && line[b..b + |r.value|] == r.value
      && OccursAt(line, PathClose, b + |r.value|)
      && forall e: nat :: b + |r.value| < e ==> !OccursAt(line, PathClose, e)
  {
    match FindFrom(line, PathOpen, 0)
    case None => None
    case Some(a) =>
      match LastAt(line, PathClose, a + |PathOpen| + 1, |line| - |PathClose|)
      case None =>
        // A later opening leaves even less room for the closing.
        assert forall a': nat, e: nat :: OccursAt(line, PathOpen, a') && a' + |PathOpen| < e ==> !OccursAt(line, PathClose, e);
        None
      case Some(e) => Some(line[a + |PathOpen|..e])
  }

  /** The error flask prints names the path back, whatever the path and
      whatever follows, as long as no further closing parenthesis does. */
  lemma MissingPathSpelled(path: string, rest: string)
    requires path != [] && ')' !in rest
    ensures MissingPath(PathOpen + path + PathClose + rest) == Some(path)
  {
    var line := PathOpen + path + PathClose + rest;
    var b := |PathOpen| + |path|;
    assert OccursAt(line, PathOpen, 0);
    assert line[|PathOpen|..b] == path;
    assert line[b..] == PathClose + rest;
    assert OccursAt(line, PathClose, b);
    NoCloseAfter(line, b, rest);
  }

  /** Once the closing text is followed only by text without `)`, it
      occurs nowhere later. */
  lemma NoCloseAfter(line: string, b: nat, rest: string)
    requires b <= |line| && line[b..] == PathClose + rest && ')' !in rest
    ensures forall e: nat :: b < e ==> !OccursAt(line, PathClose, e)
  {
    forall e: nat | b < e
      ensures !OccursAt(line, PathClose, e)
    {
      if e + |PathClose| <= |line| {
        var tail := PathClose + rest;
        assert line[e..e + |PathClose|][0] == line[e] == tail[e - b];
        if e - b < |PathClose| {
          assert PathClose[e - b] in PathClose[1..];
          assert ')' !in PathClose[1..];
        } else {
          assert tail[e - b] == rest[e - b - |PathClose|];
        }
        assert line[e..e + |PathClose|][0] != PathClose[0];
      }
    }
  }

  function PathResponse(line: string): Option<seq<string>>
  {
    match MissingPath(line)
    case None => None
    case Some(path) => Some([WrongDirectory, Format(AreYouSure, [path])])
  }

  /** `file_path_does_not_exist`: `FLASK_APP` names a file that is not
      there; the answer echoes the path. */
  function FilePathDoesNotExist(lines: seq<string>): (r: Outcome)
    ensures r.Raises? <==> lines == []
    ensures r.Matched? <==> |lines| >= 3 && Contains(lines[0], Usage) && MissingPath(lines[2]).Some?
    ensures r.Matched? ==>
      r.consumed == lines[..3] && r.response == [WrongDirectory, Format(AreYouSure, [MissingPath(lines[2]).value])]
  {
    OnThirdLine(lines, PathResponse)
  }
}
