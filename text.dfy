/** Character classes, Python-style slicing and searching, and the number
    conversions (`int`, `str`, `locale.atoi`) that every rule set is built on.

    Lines never contain a newline (the caller splits the tool's output into
    lines), so the regular-expression `.` is any character and `$` is the end
    of the line. `\d`, `\s` and `\w` are taken in their ASCII sense. */
module Text {

  datatype Option<+T> = None | Some(value: T)

  /** The exceptions a rule can raise instead of returning. */
  datatype PyError = IndexError | ValueError

  /** What one rule makes of a block of output lines: it declines (Python's
      implicit `return None`), it matches, giving the lines it accounts for
      and the hints to print, or it raises. */
  datatype Outcome =
    | Declined
    | Matched(consumed: seq<string>, response: seq<string>)
    | Raises(error: PyError)

  /** A successful outcome that accounts for a non-empty prefix of `lines`,
      of length `k`. */
  ghost predicate ConsumesPrefix(lines: seq<string>, o: Outcome, k: nat)
  {
    o.Matched? && 1 <= k <= |lines| && o.consumed == lines[..k] && o.response != []
  }

  // ---------------------------------------------------------------------
  // Character classes

  predicate IsDigit(c: char) { '0' <= c <= '9' }

  predicate IsHexDigit(c: char) { IsDigit(c) || 'a' <= c <= 'f' || 'A' <= c <= 'F' }

  /** `[A-Za-z0-9_]`, which is also `\w` in its ASCII sense. */
  predicate IsWordChar(c: char) { 'a' <= c <= 'z' || 'A' <= c <= 'Z' || IsDigit(c) || c == '_' }

  /** `\s` */
  predicate IsSpace(c: char)
  {
    c == ' ' || c == '\t' || c == '\n' || c == '\r' || c == '\U{B}' || c == '\U{C}'
  }

  predicate IsDigitOrComma(c: char) { IsDigit(c) || c == ',' }

  predicate AllDigits(s: string) { forall i :: 0 <= i < |s| ==> IsDigit(s[i]) }

  // ---------------------------------------------------------------------
  // Python slicing

  function Min(a: int, b: int): int { if a <= b then a else b }

  /** `s[0:k]` */
  function Take<T>(s: seq<T>, k: nat): seq<T>
  {
    s[..Min(k, |s|)]
  }

  /** `s[k:]` */
  function Drop<T>(s: seq<T>, k: nat): seq<T>
  {
    s[Min(k, |s|)..]
  }

  /** `s[a:b]` for non-negative bounds. */
  function Window<T>(s: seq<T>, a: nat, b: nat): (r: seq<T>)
    ensures a + 2 <= b && |r| >= 2 ==> |s| >= a + 2 && r[0] == s[a] && r[1] == s[a + 1]
  {
    if Min(b, |s|) <= Min(a, |s|) then [] else s[Min(a, |s|)..Min(b, |s|)]
  }

  /** `str(x)` for an optional string, as `format` prints it: `None` for a
      group that did not take part in the match. */
  function Show(x: Option<string>): string
  {
    if x.Some? then x.value else "None"
  }

  /** Python's `template.format(*args)` for templates whose fields are all
      `{}`, with `{{` and `}}` standing for single braces. */
  function Format(t: string, args: seq<string>): string
    decreases |t|
  {
    if t == [] then []
    else if |t| >= 2 && t[0] == '{' && t[1] == '}' then
      (if args == [] then "" else args[0]) + Format(t[2..], if args == [] then [] else args[1..])
    else if |t| >= 2 && t[0] == '{' && t[1] == '{' then "{" + Format(t[2..], args)
    else if |t| >= 2 && t[0] == '}' && t[1] == '}' then "}" + Format(t[2..], args)
    else [t[0]] + Format(t[1..], args)
  }

  /** Two texts that differ only in the middle piece are equal only when the
      middle pieces are. */
  lemma MiddleDiffers(head: string, a: string, b: string, tail: string)
    requires a != b
    ensures head + a + tail != head + b + tail
  {
    if |a| == |b| {
      var k :| 0 <= k < |a| && a[k] != b[k];
      assert (head + a + tail)[|head| + k] == a[k];
      assert (head + b + tail)[|head| + k] == b[k];
    } else {
      assert |head + a + tail| != |head + b + tail|;
    }
  }

  // ---------------------------------------------------------------------
  // Searching

  predicate StartsWith(s: string, p: string)
  {
    |p| <= |s| && s[..|p|] == p
  }

  predicate OccursAt(s: string, p: string, k: nat)
  {
    k + |p| <= |s| && s[k..k + |p|] == p
  }

  /** A prefix `x + y` is `x` followed by `y` where `x` ends. */
  lemma StartsWithAppend(s: string, x: string, y: string)
    ensures StartsWith(s, x + y) <==> StartsWith(s, x) && OccursAt(s, y, |x|)
  {
    if StartsWith(s, x) && OccursAt(s, y, |x|) {
      assert s[..|x + y|] == s[..|x|] + s[|x|..|x| + |y|];
    }
    if StartsWith(s, x + y) {
      assert s[..|x|] == (x + y)[..|x|];
      assert s[|x|..|x| + |y|] == (x + y)[|x|..];
    }
  }

  /** Length of the maximal run of characters satisfying `p` from index `i`. */
  function Run(s: string, i: nat, p: char -> bool): (n: nat)
    requires i <= |s|
    ensures i + n <= |s|
    ensures forall k :: i <= k < i + n ==> p(s[k])
    ensures i + n == |s| || !p(s[i + n])
    decreases |s| - i
  {
    if i < |s| && p(s[i]) then 1 + Run(s, i + 1, p) else 0
  }

  /** The maximal run of characters satisfying `p` at the start of `s`. */
  function LeadingRun(s: string, p: char -> bool): (r: string)
    ensures |r| == Run(s, 0, p) && r == s[..|r|]
    ensures forall i :: 0 <= i < |r| ==> p(r[i])
  {
    s[..Run(s, 0, p)]
  }

  /** A run of `n` characters satisfying `p`, followed by one that does
      not, is the maximal run. */
  lemma {:induction false} RunStops(s: string, i: nat, p: char -> bool, n: nat)
    requires i + n <= |s|
    requires forall k :: i <= k < i + n ==> p(s[k])
    requires i + n == |s| || !p(s[i + n])
    ensures Run(s, i, p) == n
    decreases n
  {
    if n > 0 {
      RunStops(s, i + 1, p, n - 1);
    }
  }

  /** The leftmost occurrence of `p` at or after `from` (Python's
      `s.find(p, from)`). */
  function FindFrom(s: string, p: string, from: nat): (r: Option<nat>)
    ensures r.Some? ==> from <= r.value && OccursAt(s, p, r.value)
    ensures r.Some? ==> forall k :: from <= k < r.value ==> !OccursAt(s, p, k)
    ensures r.None? ==> forall k :: from <= k ==> !OccursAt(s, p, k)
    decreases |s| - from
  {
    if from + |p| > |s| then None
    else if OccursAt(s, p, from) then Some(from)
    else FindFrom(s, p, from + 1)
  }

  /** The first line, from `from` on, that satisfies `p`: the loop
      `for i, line in enumerate(lines)` that stops at the first match. */
  function FirstLine(lines: seq<string>, p: string -> bool, from: nat): (r: Option<nat>)
    ensures r.Some? ==> from <= r.value < |lines| && p(lines[r.value])
    ensures r.Some? ==> forall k :: from <= k < r.value ==> !p(lines[k])
    ensures r.None? ==> forall k :: from <= k < |lines| ==> !p(lines[k])
    decreases |lines| - from
  {
    if from >= |lines| then None
    else if p(lines[from]) then Some(from)
    else FirstLine(lines, p, from + 1)
  }

  /** Python's `p in s`. */
  predicate Contains(s: string, p: string)
  {
    FindFrom(s, p, 0).Some?
  }

  /** Python's `s.index(c)` when `c` is known to occur. */
  function IndexOfChar(s: string, c: char): (i: nat)
    requires c in s
    ensures i < |s| && s[i] == c
    ensures forall k :: 0 <= k < i ==> s[k] != c
  {
    if s[0] == c then 0 else 1 + IndexOfChar(s[1..], c)
  }

  /** The largest `k` with `lo <= k <= hi` at which `p` occurs: where a
      greedy `(.*)` or `(.+)` followed by the literal `p` stops. */
  function LastAt(s: string, p: string, lo: nat, hi: int): (r: Option<nat>)
    ensures r.Some? ==> lo <= r.value <= hi && OccursAt(s, p, r.value)
    ensures r.Some? ==> forall k :: r.value < k <= hi ==> !OccursAt(s, p, k)
    ensures r.None? ==> forall k :: lo <= k <= hi ==> !OccursAt(s, p, k)
    decreases hi - lo + 1
  {
    if hi < lo then None
    else if OccursAt(s, p, hi) then Some(hi)
    else LastAt(s, p, lo, hi - 1)
  }

  lemma {:induction false} ContainsAt(s: string, p: string, k: nat)
    requires OccursAt(s, p, k)
    ensures Contains(s, p)
  {
    FindFromReaches(s, p, 0, k);
  }

  lemma {:induction false} FindFromReaches(s: string, p: string, from: nat, k: nat)
    requires from <= k && OccursAt(s, p, k)
    ensures FindFrom(s, p, from).Some? && FindFrom(s, p, from).value <= k
    decreases k - from
  {
    if !OccursAt(s, p, from) {
      FindFromReaches(s, p, from + 1, k);
    }
  }

  /** Python's `s.split('/')[-1]`: what follows the last `/`. */
  function LastComponent(s: string): (r: string)
    ensures '/' !in r
    ensures |r| <= |s| && r == s[|s| - |r|..]
  {
    if '/' !in s then s
    else
      var r := LastComponent(s[1..]);
      assert s[1..][|s[1..]| - |r|..] == s[|s| - |r|..];
      r
  }

  // ---------------------------------------------------------------------
  // Numbers

  function DigitValue(c: char): nat
    requires IsDigit(c)
  {
    c as int - '0' as int
  }

  function DigitChar(d: nat): char
    requires d < 10
  {
    ('0' as int + d) as char
  }

  /** Python's `int(s)` on a non-empty string of ASCII digits (leading
      zeros allowed). */
  function ParseNat(s: string): nat
    requires AllDigits(s)
  {
    if s == [] then 0 else ParseNat(s[..|s| - 1]) * 10 + DigitValue(s[|s| - 1])
  }

  /** Python's `str(n)` for a natural number. */
  function NatToString(n: nat): (r: string)
    ensures r != [] && AllDigits(r)
  {
    if n < 10 then [DigitChar(n)] else NatToString(n / 10) + [DigitChar(n % 10)]
  }

  /** Python's `str(i)` for any integer. */
  function IntToString(i: int): string
  {
    if i < 0 then "-" + NatToString(-i) else NatToString(i)
  }

  lemma {:induction false} ParseNatToString(n: nat)
    ensures ParseNat(NatToString(n)) == n
  {
    if n >= 10 {
      ParseNatToString(n / 10);
      var s := NatToString(n);
      assert s[..|s| - 1] == NatToString(n / 10);
    }
  }

  /** `[\d,]+` with the thousands separators removed. */
  function Delocalize(s: string): (r: string)
    ensures (forall i :: 0 <= i < |s| ==> IsDigitOrComma(s[i])) ==> AllDigits(r)
    ensures |r| <= |s|
    ensures r == [] <==> forall i :: 0 <= i < |s| ==> s[i] == ','
  {
    if s == [] then []
    else if s[0] == ',' then Delocalize(s[1..])
    else [s[0]] + Delocalize(s[1..])
  }

  /** `locale.atoi` under an English locale: drop the `,` separators and
      parse; `int("")` raises ValueError, modelled as None. */
  function LocaleAtoi(s: string): (r: Option<nat>)
    requires forall i :: 0 <= i < |s| ==> IsDigitOrComma(s[i])
  {
    var d := Delocalize(s);
    if d == [] then None else Some(ParseNat(d))
  }

  /** The way a count is printed with thousands separators: `8,013,096`. */
  function Grouped(n: nat): string
  {
    if n < 1000 then NatToString(n) else Grouped(n / 1000) + "," + Pad3(n % 1000)
  }

  /** Three digits, zero-padded. */
  function Pad3(r: nat): (s: string)
    requires r < 1000
    ensures |s| == 3 && AllDigits(s)
  {
    [DigitChar(r / 100), DigitChar((r / 10) % 10), DigitChar(r % 10)]
  }

  lemma ParsePad3(r: nat)
    requires r < 1000
    ensures ParseNat(Pad3(r)) == r
  {
    var s := Pad3(r);
    assert s[..2][..1] == s[..1] == [s[0]];
    assert ParseNat([s[0]]) == r / 100;
    assert ParseNat(s[..2]) == (r / 100) * 10 + (r / 10) % 10 == r / 10;
    assert ParseNat(s) == (r / 10) * 10 + r % 10 == r;
  }

  function Pow10(k: nat): nat
  {
    if k == 0 then 1 else 10 * Pow10(k - 1)
  }

  lemma {:induction false} ParseNatAppend(a: string, b: string)
    requires AllDigits(a) && AllDigits(b)
    ensures AllDigits(a + b)
    ensures ParseNat(a + b) == ParseNat(a) * Pow10(|b|) + ParseNat(b)
    decreases |b|
  {
    AllDigitsAppend(a, b);
    if b != [] {
      var b' := b[..|b| - 1];
      assert (a + b)[..|a + b| - 1] == a + b';
      assert (a + b)[|a + b| - 1] == b[|b| - 1];
      ParseNatAppend(a, b');
      var x, p, y, d := ParseNat(a), Pow10(|b'|), ParseNat(b'), DigitValue(b[|b| - 1]);
      assert ParseNat(a + b) == (x * p + y) * 10 + d;
      assert ParseNat(b) == y * 10 + d;
      assert Pow10(|b|) == 10 * p;
      ShiftDigit(x, p, y, d);
    } else {
      assert a + b == a;
    }
  }

  lemma AllDigitsAppend(a: string, b: string)
    requires AllDigits(a) && AllDigits(b)
    ensures AllDigits(a + b)
  {
    forall i | 0 <= i < |a + b| ensures IsDigit((a + b)[i]) {
      if i < |a| { assert (a + b)[i] == a[i]; } else { assert (a + b)[i] == b[i - |a|]; }
    }
  }

  lemma ShiftDigit(x: int, p: int, y: int, d: int)
    ensures (x * p + y) * 10 + d == x * (10 * p) + (y * 10 + d)
  {
  }

  lemma {:induction false} DelocalizeAppend(a: string, b: string)
    ensures Delocalize(a + b) == Delocalize(a) + Delocalize(b)
    decreases |a|
  {
    if a != [] {
      assert (a + b)[0] == a[0];
      assert (a + b)[1..] == a[1..] + b;
      DelocalizeAppend(a[1..], b);
    } else {
      assert a + b == b;
    }
  }

  lemma {:induction false} DelocalizeDigits(s: string)
    requires AllDigits(s)
    ensures Delocalize(s) == s
    decreases |s|
  {
    if s != [] {
      DelocalizeDigits(s[1..]);
    }
  }

  /** A comma-grouped count parses back to itself: `locale.atoi` inverts the
      separators valgrind prints. */
  lemma {:induction false} AtoiGrouped(n: nat)
    ensures forall i :: 0 <= i < |Grouped(n)| ==> IsDigitOrComma(Grouped(n)[i])
    ensures LocaleAtoi(Grouped(n)) == Some(n)
    decreases n
  {
    GroupedDigits(n);
  }

  lemma {:induction false} GroupedDigits(n: nat)
    ensures forall i :: 0 <= i < |Grouped(n)| ==> IsDigitOrComma(Grouped(n)[i])
    ensures AllDigits(Delocalize(Grouped(n))) && Delocalize(Grouped(n)) != []
    ensures ParseNat(Delocalize(Grouped(n))) == n
    decreases n
  {
    if n < 1000 {
      DelocalizeDigits(NatToString(n));
      ParseNatToString(n);
    } else {
      var hi, lo := Grouped(n / 1000), Pad3(n % 1000);
      GroupedDigits(n / 1000);
      assert Grouped(n) == hi + ("," + lo);
      DelocalizeAppend(hi, "," + lo);
      assert ("," + lo)[1..] == lo;
      DelocalizeDigits(lo);
      ParseNatAppend(Delocalize(hi), lo);
      ParsePad3(n % 1000);
      assert Pow10(3) == 1000 by {
        assert Pow10(1) == 10;
        assert Pow10(2) == 100;
      }
      assert Delocalize(Grouped(n)) == Delocalize(hi) + lo;
      assert ParseNat(Delocalize(Grouped(n))) == (n / 1000) * 1000 + n % 1000;
      forall i | 0 <= i < |Grouped(n)| ensures IsDigitOrComma(Grouped(n)[i]) {
        if i < |hi| { assert Grouped(n)[i] == hi[i]; }
        else if i > |hi| { assert Grouped(n)[i] == lo[i - |hi| - 1]; }
      }
    }
  }
}
