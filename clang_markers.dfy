/** The marker lines clang prints under a source line: a caret `^` under
    one column, or a run of tildes `~` under a span (`_has_caret`,
    `_caret_extract` and `_tilde_extract` in helpers/clang.py). */
module ClangMarkers {
  import opened Text

  /** `[ ~]` */
  predicate IsPad(c: char) { c == ' ' || c == '~' }

  /** `re.search(r"^[ ~]*\^[ ~]*$", line)`: both repetitions are greedy
      and cannot match `^`, so the first one stops at the caret. */
  predicate HasCaret(line: string)
  {
    var a := Run(line, 0, IsPad);
    a < |line| && line[a] == '^' && a + 1 + Run(line, a + 1, IsPad) == |line|
  }

  /** A caret line is made of spaces and tildes around exactly one caret. */
  lemma HasCaretIff(line: string)
    ensures HasCaret(line) <==>
      exists i :: 0 <= i < |line| && line[i] == '^' &&
        forall k :: 0 <= k < |line| && k != i ==> IsPad(line[k])
  {
    var a := Run(line, 0, IsPad);
    if HasCaret(line) {
      assert forall k :: 0 <= k < |line| && k != a ==> IsPad(line[k]);
    }
    if i :| 0 <= i < |line| && line[i] == '^' && forall k :: 0 <= k < |line| && k != i ==> IsPad(line[k]) {
      assert a == i;
      var b := Run(line, a + 1, IsPad);
      assert a + 1 + b == |line|;
    }
  }

  /** The column of the caret on a caret line. */
  function CaretColumn(line: string): (i: nat)
    requires HasCaret(line)
    ensures i < |line| && line[i] == '^'
    ensures forall k :: 0 <= k < |line| && k != i ==> IsPad(line[k])
  {
    Run(line, 0, IsPad)
  }

  /** Length of the maximal run of characters satisfying `p` at the end of `s`. */
  function TrailingRun(s: string, p: char -> bool): (n: nat)
    ensures n <= |s|
    ensures forall k :: |s| - n <= k < |s| ==> p(s[k])
    ensures n == |s| || !p(s[|s| - n - 1])
  {
    if s != [] && p(s[|s| - 1]) then 1 + TrailingRun(s[..|s| - 1], p) else 0
  }

  /** The word of `s` that starts at column `i`: `s[i:]` up to the first
      character that cannot be part of an identifier. */
  function WordFrom(s: string, i: nat): (r: Option<string>)
    ensures r.Some? ==> r.value != [] && forall k :: 0 <= k < |r.value| ==> IsWordChar(r.value[k])
    ensures r.Some? ==>
      && i + |r.value| <= |s| && s[i..i + |r.value|] == r.value
      && (i + |r.value| == |s| || !IsWordChar(s[i + |r.value|]))
    ensures r.None? ==> i >= |s| || !IsWordChar(s[i])
  {
    var tail := Drop(s, i);
    var n := Run(tail, 0, IsWordChar);
    if n == 0 then None
    else
      assert tail == s[i..];
      assert forall k :: 0 <= k < n ==> tail[..n][k] == tail[k];
      Some(tail[..n])
  }

  /** The word of `s` that ends just before column `e` (or at the end of
      `s`): `s[:e]` from the last character that cannot be part of an
      identifier. */
  function WordBefore(s: string, e: nat): (r: Option<string>)
    ensures r.Some? ==> r.value != [] && forall k :: 0 <= k < |r.value| ==> IsWordChar(r.value[k])
    ensures r.Some? ==>
      var e' := Min(e, |s|);
      && |r.value| <= e' && s[e' - |r.value|..e'] == r.value
      && (e' == |r.value| || !IsWordChar(s[e' - |r.value| - 1]))
    ensures r.None? ==> var e' := Min(e, |s|); e' == 0 || !IsWordChar(s[e' - 1])
  {
    var head := Take(s, e);
    var n := TrailingRun(head, IsWordChar);
    if n == 0 then None
    else
      assert head == s[..Min(e, |s|)];
      Some(head[|head| - n..])
  }

  /** `_caret_extract(lines, left_aligned)`: the identifier the caret of
      `lines[1]` points at, starting at its column (left-aligned) or ending
      just before it (right-aligned). */
  function CaretExtract(lines: seq<string>, leftAligned: bool): (r: Option<string>)
    ensures r.Some? ==> |lines| >= 2 && HasCaret(lines[1])
    ensures r.Some? ==> r.value != [] && forall k :: 0 <= k < |r.value| ==> IsWordChar(r.value[k])
    ensures r.Some? && leftAligned ==>
      var c := CaretColumn(lines[1]);
      && c + |r.value| <= |lines[0]| && lines[0][c..c + |r.value|] == r.value
      && (c + |r.value| == |lines[0]| || !IsWordChar(lines[0][c + |r.value|]))
    ensures r.Some? && !leftAligned ==>
      var e := Min(CaretColumn(lines[1]), |lines[0]|);
      && |r.value| <= e && lines[0][e - |r.value|..e] == r.value
      && (e == |r.value| || !IsWordChar(lines[0][e - |r.value| - 1]))
    ensures r.None? && |lines| >= 2 && HasCaret(lines[1]) && leftAligned ==>
      var c := CaretColumn(lines[1]);
      c >= |lines[0]| || !IsWordChar(lines[0][c])
    ensures r.None? && |lines| >= 2 && HasCaret(lines[1]) && !leftAligned ==>
      var e := Min(CaretColumn(lines[1]), |lines[0]|);
      e == 0 || !IsWordChar(lines[0][e - 1])
  {
    if |lines| < 2 || !HasCaret(lines[1]) then None
    else if leftAligned then WordFrom(lines[0], CaretColumn(lines[1]))
    else WordBefore(lines[0], CaretColumn(lines[1]))
  }

  /** A token with a caret under its first character is recovered
      left-aligned, and with a caret just past its last character
      right-aligned: the two conventions agree. */
  lemma CaretSymmetry(src: string, c: nat, t: string, pad: string)
    requires t != [] && forall k :: 0 <= k < |t| ==> IsWordChar(t[k])
    requires c + |t| <= |src| && src[c..c + |t|] == t
    requires c == 0 || !IsWordChar(src[c - 1])
    requires c + |t| == |src| || !IsWordChar(src[c + |t|])
    requires forall k :: 0 <= k < |pad| ==> IsPad(pad[k])
    ensures CaretExtract([src, Repeat(' ', c) + "^" + pad], true) == Some(t)
    ensures CaretExtract([src, Repeat(' ', c + |t|) + "^" + pad], false) == Some(t)
  {
    CaretUnderFirst(src, c, t, pad);
    CaretPastLast(src, c, t, pad);
  }

  /** Left-aligned, the caret sits under the token's first character. */
  lemma CaretUnderFirst(src: string, c: nat, t: string, pad: string)
    requires t != [] && forall k :: 0 <= k < |t| ==> IsWordChar(t[k])
    requires c + |t| <= |src| && src[c..c + |t|] == t
    requires c + |t| == |src| || !IsWordChar(src[c + |t|])
    requires forall k :: 0 <= k < |pad| ==> IsPad(pad[k])
    ensures CaretExtract([src, Repeat(' ', c) + "^" + pad], true) == Some(t)
  {
    CaretLine(c, pad);
    WordFromToken(src, c, t);
    CaretAt(src, Repeat(' ', c) + "^" + pad, true);
  }

  /** Right-aligned, the caret sits just past the token's last character. */
  lemma CaretPastLast(src: string, c: nat, t: string, pad: string)
    requires t != [] && forall k :: 0 <= k < |t| ==> IsWordChar(t[k])
    requires c + |t| <= |src| && src[c..c + |t|] == t
    requires c == 0 || !IsWordChar(src[c - 1])
    requires forall k :: 0 <= k < |pad| ==> IsPad(pad[k])
    ensures CaretExtract([src, Repeat(' ', c + |t|) + "^" + pad], false) == Some(t)
  {
    CaretLine(c + |t|, pad);
    WordBeforeToken(src, c, t);
    CaretAt(src, Repeat(' ', c + |t|) + "^" + pad, false);
  }

  /** Below a source line, a caret line picks the word at its column. */
  lemma CaretAt(src: string, marks: string, leftAligned: bool)
    requires HasCaret(marks)
    ensures CaretExtract([src, marks], leftAligned) ==
      if leftAligned then WordFrom(src, CaretColumn(marks)) else WordBefore(src, CaretColumn(marks))
  {
    var lines := [src, marks];
    assert lines[0] == src && lines[1] == marks;
  }

  /** The token at column `c` is the word from `c`. */
  lemma WordFromToken(src: string, c: nat, t: string)
    requires t != [] && forall k :: 0 <= k < |t| ==> IsWordChar(t[k])
    requires c + |t| <= |src| && src[c..c + |t|] == t
    requires c + |t| == |src| || !IsWordChar(src[c + |t|])
    ensures WordFrom(src, c) == Some(t)
  {
    var tail := Drop(src, c);
    assert forall k :: 0 <= k < |t| ==> tail[k] == t[k];
    RunStopsAt(tail, IsWordChar, |t|);
    assert tail[..|t|] == t;
  }

  /** The token that ends at column `c + |t|` is the word before it. */
  lemma WordBeforeToken(src: string, c: nat, t: string)
    requires t != [] && forall k :: 0 <= k < |t| ==> IsWordChar(t[k])
    requires c + |t| <= |src| && src[c..c + |t|] == t
    requires c == 0 || !IsWordChar(src[c - 1])
    ensures WordBefore(src, c + |t|) == Some(t)
  {
    var head := Take(src, c + |t|);
    assert head == src[..c + |t|];
    assert forall k :: |head| - |t| <= k < |head| ==> head[k] == t[k - c];
    TrailingStops(head, IsWordChar, |t|);
    assert head[|head| - |t|..] == t;
  }

  /** `n` copies of `c`: Python's `c * n`. */
  function Repeat(c: char, n: nat): (r: string)
    ensures |r| == n && forall k :: 0 <= k < n ==> r[k] == c
  {
    if n == 0 then [] else Repeat(c, n - 1) + [c]
  }

  lemma CaretLine(c: nat, pad: string)
    requires forall k :: 0 <= k < |pad| ==> IsPad(pad[k])
    ensures HasCaret(Repeat(' ', c) + "^" + pad) && CaretColumn(Repeat(' ', c) + "^" + pad) == c
  {
    var line := Repeat(' ', c) + "^" + pad;
    RunStops(line, 0, IsPad, c);
    RunStops(line, c + 1, IsPad, |pad|);
  }

  lemma RunStopsAt(s: string, p: char -> bool, n: nat)
    requires n <= |s|
    requires forall k :: 0 <= k < n ==> p(s[k])
    requires n == |s| || !p(s[n])
    ensures Run(s, 0, p) == n
  {
    RunStops(s, 0, p, n);
  }

  lemma {:induction false} TrailingStops(s: string, p: char -> bool, n: nat)
    requires n <= |s|
    requires forall k :: |s| - n <= k < |s| ==> p(s[k])
    requires n == |s| || !p(s[|s| - n - 1])
    ensures TrailingRun(s, p) == n
    decreases n
  {
    if n > 0 {
      var s' := s[..|s| - 1];
      TrailingStops(s', p, n - 1);
    }
  }

  /** What `_tilde_extract` returns: the text of `lines[0]` above the first
      run of tildes in `lines[1]`. */
  function UnderTildes(lines: seq<string>): (r: Option<string>)
    ensures r.Some? <==>
      && |lines| >= 2 && '~' in lines[1]
      && IndexOfChar(lines[1], '~') + Run(lines[1], IndexOfChar(lines[1], '~'), IsTilde) <= |lines[0]|
    ensures r.Some? ==>
      var start := IndexOfChar(lines[1], '~');
      && r.value != []
      && start + |r.value| <= |lines[1]| && start + |r.value| <= |lines[0]|
      && (forall k :: 0 <= k < start ==> lines[1][k] != '~')
      && (forall k :: start <= k < start + |r.value| ==> lines[1][k] == '~')
      && (start + |r.value| == |lines[1]| || lines[1][start + |r.value|] != '~')
      && r.value == lines[0][start..start + |r.value|]
  {
    if |lines| < 2 || '~' !in lines[1] then None
    else
      var start := IndexOfChar(lines[1], '~');
      var length := Run(lines[1], start, IsTilde);
      if |lines[0]| >= start + length then Some(lines[0][start..start + length]) else None
  }

  predicate IsTilde(c: char) { c == '~' }

  /** `_tilde_extract(lines)`, with its scan for the end of the tilde run. */
  method TildeExtract(lines: seq<string>) returns (r: Option<string>)
    ensures r == UnderTildes(lines)
  {
    if |lines| < 2 || '~' !in lines[1] {
      return None;
    }
    var marks := lines[1];
    var start := IndexOfChar(marks, '~');
    var length := 1;
    while |marks| > start + length && marks[start + length] == '~'
      invariant 1 <= length && start + length <= |marks|
      invariant forall k :: start <= k < start + length ==> marks[k] == '~'
      decreases |marks| - length
    {
      length := length + 1;
    }
    RunStops(marks, start, IsTilde, length);
    if |lines[0]| >= start + length {
      return Some(lines[0][start..start + length]);
    }
    return None;
  }

  /** A span underlined with tildes below a source line is recovered. */
  lemma TildeRoundTrip(src: string, c: nat, n: nat, rest: string)
    requires 0 < n && c + n <= |src|
    requires rest == [] || rest[0] != '~'
    ensures UnderTildes([src, Repeat(' ', c) + Repeat('~', n) + rest]) == Some(src[c..c + n])
  {
    TildeLine(c, n, rest);
    TildesAt(src, Repeat(' ', c) + Repeat('~', n) + rest, c, n);
  }

  /** Below a source line, the first run of tildes picks the text above it. */
  lemma TildesAt(src: string, marks: string, c: nat, n: nat)
    requires '~' in marks && IndexOfChar(marks, '~') == c && Run(marks, c, IsTilde) == n
    requires c + n <= |src|
    ensures UnderTildes([src, marks]) == Some(src[c..c + n])
  {
    var lines := [src, marks];
    assert lines[0] == src && lines[1] == marks;
  }

  /** A marker line of `c` spaces and `n` tildes has its first tilde at
      column `c` and a run of `n` tildes there. */
  lemma TildeLine(c: nat, n: nat, rest: string)
    requires 0 < n
    requires rest == [] || rest[0] != '~'
    ensures var marks := Repeat(' ', c) + Repeat('~', n) + rest;
      '~' in marks && IndexOfChar(marks, '~') == c && Run(marks, c, IsTilde) == n
  {
    var marks := Repeat(' ', c) + Repeat('~', n) + rest;
    assert marks[c] == '~';
    assert forall k :: 0 <= k < c ==> marks[k] == ' ';
    assert forall k :: c <= k < c + n ==> marks[k] == '~';
    assert c + n == |marks| || marks[c + n] == rest[0];
    RunStops(marks, c, IsTilde, n);
  }
}
