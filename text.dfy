/** The JavaScript string operations the resolver applies to yt-dlp's output:
    `String.prototype.trim`, `split("\n")` and the decimal rendering of a
    number inside a template literal (index.mjs:195-198, 217-227). */
module Text {

  /** ECMAScript WhiteSpace and LineTerminator code points: exactly what
      `trim()` strips from both ends. */
  predicate IsSpace(c: char) {
    c == ' ' || c == '\t' || c == '\n' || c == '\r' || c == '\U{0B}' || c == '\U{0C}'
    || c == '\U{A0}' || c == '\U{1680}' || ('\U{2000}' <= c <= '\U{200A}')
    || c == '\U{2028}' || c == '\U{2029}' || c == '\U{202F}' || c == '\U{205F}'
    || c == '\U{3000}' || c == '\U{FEFF}'
  }

  /** Drops the leading white space; what it drops is all white space and
      what is left does not start with white space. */
  function TrimStart(s: string): (r: string)
    ensures |r| <= |s| && r == s[|s| - |r|..]
    ensures r == [] || !IsSpace(r[0])
    ensures forall i :: 0 <= i < |s| - |r| ==> IsSpace(s[i])
    decreases |s|
  {
    if s != [] && IsSpace(s[0]) then
      var r := TrimStart(s[1..]);
      assert s[1..][|s| - 1 - |r|..] == s[|s| - |r|..];
      r
    else s
  }

  /** Drops the trailing white space, symmetrically. */
  function TrimEnd(s: string): (r: string)
    ensures |r| <= |s| && r == s[..|r|]
    ensures r == [] || !IsSpace(r[|r| - 1])
    ensures forall i :: |r| <= i < |s| ==> IsSpace(s[i])
    decreases |s|
  {
    if s != [] && IsSpace(s[|s| - 1]) then
      var r := TrimEnd(s[..|s| - 1]);
      assert s[..|s| - 1][..|r|] == s[..|r|];
      r
    else s
  }

  /** `s` is white space throughout. */
  predicate AllSpace(s: string) {
    forall i :: 0 <= i < |s| ==> IsSpace(s[i])
  }

  /** `s.trim()`: what is left is a contiguous piece of `s` that neither
      starts nor ends with white space, and everything cut off on either
      side of it is white space. */
  function Trim(s: string): (r: string)
    ensures |r| <= |s|
    ensures r == [] || (!IsSpace(r[0]) && !IsSpace(r[|r| - 1]))
    ensures exists a, b :: 0 <= a <= b <= |s| && r == s[a..b] && AllSpace(s[..a]) && AllSpace(s[b..])
  {
    var t := TrimStart(s);
    var r := TrimEnd(t);
    CutBounds(s, t, r);
    r
  }

  /** Cutting white space off the front of `s`, giving `t`, and then off the
      back of `t`, giving `r`, leaves a piece of `s` between two all-space
      parts. */
  lemma CutBounds(s: string, t: string, r: string)
    requires |t| <= |s| && t == s[|s| - |t|..]
    requires forall i :: 0 <= i < |s| - |t| ==> IsSpace(s[i])
    requires |r| <= |t| && r == t[..|r|]
    requires forall i :: |r| <= i < |t| ==> IsSpace(t[i])
    ensures var a := |s| - |t|;
      r == s[a..a + |r|] && AllSpace(s[..a]) && AllSpace(s[a + |r|..])
  {
    var a := |s| - |t|;
    var b := a + |r|;
    assert s[a..b] == s[a..][..|r|];
    assert s[b..] == t[|r|..];
    assert AllSpace(s[..a]) by {
      forall i | 0 <= i < a
        ensures IsSpace(s[..a][i])
      {
        assert s[..a][i] == s[i];
      }
    }
    assert AllSpace(s[b..]) by {
      forall i | 0 <= i < |s| - b
        ensures IsSpace(s[b..][i])
      {
        assert s[b..][i] == t[|r| + i];
      }
    }
  }

  /** A string with no white space at either end is left as it is. */
  lemma TrimOfTrimmed(s: string)
    requires s == [] || (!IsSpace(s[0]) && !IsSpace(s[|s| - 1]))
    ensures Trim(s) == s
  {
    assert TrimStart(s) == s;
    assert TrimEnd(s) == s;
  }

  /** Trimming twice is trimming once. */
  lemma TrimIdempotent(s: string)
    ensures Trim(Trim(s)) == Trim(s)
  {
    TrimOfTrimmed(Trim(s));
  }

  /** Position of the first `c` in `s`. */
  function IndexOf(s: string, c: char): (k: nat)
    requires c in s
    ensures k < |s| && s[k] == c && c !in s[..k]
  {
    if s[0] == c then 0
    else
      assert c in s[1..] by { var j :| 0 <= j < |s| && s[j] == c; assert s[1..][j - 1] == c; }
      var k := 1 + IndexOf(s[1..], c);
      assert s[..k] == [s[0]] + s[1..][..k - 1];
      k
  }

  /** `s.split("\n")`: the pieces between line feeds; there is always at
      least one piece, and `"".split("\n")` is `[""]`. */
  function Lines(s: string): (r: seq<string>)
    ensures |r| >= 1
    ensures forall i :: 0 <= i < |r| ==> '\n' !in r[i]
    decreases |s|
  {
    if '\n' in s then
      var k := IndexOf(s, '\n');
      [s[..k]] + Lines(s[k + 1..])
    else
      [s]
  }

  /** `lines.join("\n")`, the inverse of `Lines`. */
  function JoinLines(ls: seq<string>): (r: string)
    requires |ls| >= 1
    decreases |ls|
  {
    if |ls| == 1 then ls[0] else ls[0] + "\n" + JoinLines(ls[1..])
  }

  /** Splitting and joining again gives back the text. */
  lemma {:induction false} JoinLinesOfLines(s: string)
    ensures JoinLines(Lines(s)) == s
    decreases |s|
  {
    if '\n' in s {
      var k := IndexOf(s, '\n');
      var rest := Lines(s[k + 1..]);
      JoinLinesOfLines(s[k + 1..]);
      assert Lines(s) == [s[..k]] + rest;
      assert Lines(s)[1..] == rest;
      assert s == s[..k] + "\n" + s[k + 1..];
    }
  }

  /** Joining lines free of line feeds and splitting again gives back the
      lines. */
  lemma {:induction false} LinesOfJoinLines(ls: seq<string>)
    requires |ls| >= 1
    requires forall i :: 0 <= i < |ls| ==> '\n' !in ls[i]
    ensures Lines(JoinLines(ls)) == ls
    decreases |ls|
  {
    if |ls| > 1 {
      var s := JoinLines(ls);
      var tail := JoinLines(ls[1..]);
      assert s == ls[0] + "\n" + tail;
      assert s[|ls[0]|] == '\n';
      assert s[..|ls[0]|] == ls[0];
      var k := IndexOf(s, '\n');
      assert forall j :: 0 <= j < |ls[0]| ==> s[j] == ls[0][j] != '\n';
      assert forall j :: 0 <= j < k ==> s[..k][j] == s[j] != '\n';
      assert k == |ls[0]|;
      assert s[k + 1..] == tail;
      LinesOfJoinLines(ls[1..]);
    } else {
      assert JoinLines(ls) == ls[0];
    }
  }

  function Digit(d: nat): (c: char)
    requires d < 10
    ensures '0' <= c <= '9' && (c as int) - ('0' as int) == d
  {
    (('0' as int) + d) as char
  }

  /** The decimal rendering of a natural number, as `${n}` gives it. */
  function NatToString(n: nat): (r: string)
    ensures |r| >= 1
    ensures forall i :: 0 <= i < |r| ==> '0' <= r[i] <= '9'
    ensures |r| > 1 ==> r[0] != '0'
    decreases n
  {
    if n < 10 then [Digit(n)] else NatToString(n / 10) + [Digit(n % 10)]
  }

  /** The value of a string of decimal digits. */
  function DecimalValue(s: string): nat
    requires forall i :: 0 <= i < |s| ==> '0' <= s[i] <= '9'
    decreases |s|
  {
    if s == [] then 0
    else DecimalValue(s[..|s| - 1]) * 10 + ((s[|s| - 1] as int) - ('0' as int))
  }

  /** Rendering a number and reading it back gives the number. */
  lemma {:induction false} DecimalValueOfNatToString(n: nat)
    ensures DecimalValue(NatToString(n)) == n
    decreases n
  {
    if n >= 10 {
      var s := NatToString(n / 10);
      DecimalValueOfNatToString(n / 10);
      assert (s + [Digit(n % 10)])[..|s|] == s;
    }
  }
}
