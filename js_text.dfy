/** The string operations the header parsing relies on, with JavaScript's
    meaning: `String.prototype.trim` and the regular expression
    `/^Bearer\s*(.*)/`, where `\s` and `trim` share one set of white space
    and `.` stops at a line terminator. */
module JsText {
  import opened Wrappers

  /** ECMAScript LineTerminator: LF, CR, LINE SEPARATOR, PARAGRAPH SEPARATOR. */
  predicate IsLineTerminator(c: char) {
    var n := c as int;
    n == 0x0A || n == 0x0D || n == 0x2028 || n == 0x2029
  }

  /** ECMAScript WhiteSpace or LineTerminator: what `\s` matches and what
      `trim` removes. */
  predicate IsSpace(c: char) {
    var n := c as int;
    || IsLineTerminator(c)
    || n == 0x09 || n == 0x0B || n == 0x0C || n == 0x20 || n == 0xA0 || n == 0xFEFF
    || n == 0x1680 || (0x2000 <= n <= 0x200A) || n == 0x202F || n == 0x205F || n == 0x3000
  }

  predicate NoLineTerminator(s: string) {
    forall i :: 0 <= i < |s| ==> !IsLineTerminator(s[i])
  }

  /** `s` with its leading white space removed. */
  function TrimStart(s: string): (r: string)
    ensures |r| <= |s| && r == s[|s| - |r|..]
    ensures r == [] || !IsSpace(r[0])
    ensures forall i :: 0 <= i < |s| - |r| ==> IsSpace(s[i])
  {
    if |s| > 0 && IsSpace(s[0]) then TrimStart(s[1..]) else s
  }

  /** `s` with its trailing white space removed. */
  function TrimEnd(s: string): (r: string)
    ensures |r| <= |s| && r == s[..|r|]
    ensures r == [] || !IsSpace(r[|r| - 1])
    ensures forall i :: |r| <= i < |s| ==> IsSpace(s[i])
  {
    if |s| > 0 && IsSpace(s[|s| - 1]) then TrimEnd(s[..|s| - 1]) else s
  }

  /** Everything of `s` before `i` and from `j` on is white space. */
  predicate SpaceOutside(s: string, i: int, j: int) {
    && 0 <= i <= j <= |s|
    && (forall k :: 0 <= k < i ==> IsSpace(s[k]))
    && (forall k :: j <= k < |s| ==> IsSpace(s[k]))
  }

  /** `s.trim()`: no white space is left at either edge. */
  function Trim(s: string): (r: string)
    ensures r == [] || (!IsSpace(r[0]) && !IsSpace(r[|r| - 1]))
  {
    TrimEnd(TrimStart(s))
  }

  /** `trim` keeps the middle of `s` intact and cuts off only white space on
      either side. */
  lemma TrimKeepsMiddle(s: string)
    ensures exists i, j :: SpaceOutside(s, i, j) && Trim(s) == s[i..j]
  {
    var t := TrimStart(s);
    var r := TrimEnd(t);
    var i := |s| - |t|;
    assert t == s[i..];
    forall k | i + |r| <= k < |s|
      ensures IsSpace(s[k])
    {
      assert s[k] == t[k - i];
    }
    assert SpaceOutside(s, i, i + |r|) && r == s[i..i + |r|];
  }

  /** A string that neither starts nor ends with white space is its own
      trim. */
  lemma TrimmedText(s: string)
    requires s != [] && !IsSpace(s[0]) && !IsSpace(s[|s| - 1])
    ensures Trim(s) == s
  {
    assert TrimStart(s) == s;
  }

  /** What `.*` matches at the start of `s`: everything up to the first line
      terminator. */
  function TakeLine(s: string): (r: string)
    ensures |r| <= |s| && r == s[..|r|]
    ensures NoLineTerminator(r)
    ensures |r| < |s| ==> IsLineTerminator(s[|r|])
  {
    if |s| == 0 || IsLineTerminator(s[0]) then [] else [s[0]] + TakeLine(s[1..])
  }

  const Bearer: string := "Bearer"

  /** `s.match(/^Bearer\s*(.*)/)`, reduced to its capture group; `None` is a
      null match. The greedy `\s*` consumes all white space after the word,
      so the group starts at the first other character and runs to the end
      of that line. */
  function BearerMatch(s: string): (m: Option<string>)
    ensures m.Some? <==> |s| >= |Bearer| && s[..|Bearer|] == Bearer
    ensures m.Some? ==> m.value == TakeLine(TrimStart(s[|Bearer|..]))
  {
    if |s| >= |Bearer| && s[..|Bearer|] == Bearer then Some(TakeLine(TrimStart(s[|Bearer|..]))) else None
  }

  /** Trimming is idempotent, so the second `trim` in the destructuring
      variant changes nothing. */
  lemma {:induction false} TrimIdempotent(s: string)
    ensures Trim(Trim(s)) == Trim(s)
  {
    var t := Trim(s);
    if t != [] {
      assert TrimStart(t) == t;
      assert TrimEnd(t) == t;
    }
  }

  /** A line without line terminators is taken whole. */
  lemma {:induction false} TakeLineWhole(s: string)
    requires NoLineTerminator(s)
    ensures TakeLine(s) == s
  {
    if |s| > 0 {
      TakeLineWhole(s[1..]);
      assert [s[0]] + s[1..] == s;
    }
  }

  /** The capture group never begins with white space, and from a trimmed
      header without line terminators it never ends with white space either. */
  lemma BearerTokenIsTrimmed(s: string)
    requires BearerMatch(s).Some?
    ensures var t := BearerMatch(s).value; t == [] || !IsSpace(t[0])
    ensures var t := BearerMatch(s).value;
      Trim(s) == s && NoLineTerminator(s) ==> t == [] || !IsSpace(t[|t| - 1])
  {
    var rest := TrimStart(s[|Bearer|..]);
    var t := BearerMatch(s).value;
    if Trim(s) == s && NoLineTerminator(s) && t != [] {
      SuffixKeepsLine(s, |s| - |rest|);
      TakeLineWhole(rest);
      assert t[|t| - 1] == s[|s| - 1];
    }
  }

  /** A suffix of a line is a line. */
  lemma SuffixKeepsLine(s: string, k: nat)
    requires k <= |s| && NoLineTerminator(s)
    ensures NoLineTerminator(s[k..])
  {
    forall i | 0 <= i < |s| - k ensures !IsLineTerminator(s[k..][i]) {
      assert s[k..][i] == s[k + i];
    }
  }

  /** `Bearer` followed directly by a token, with or without a space: the
      token is what the group captures. */
  lemma BearerThenToken(gap: string, token: string)
    requires forall i :: 0 <= i < |gap| ==> IsSpace(gap[i])
    requires token == [] || !IsSpace(token[0])
    requires NoLineTerminator(token)
    ensures BearerMatch(Bearer + gap + token) == Some(token)
  {
    var s := Bearer + gap + token;
    assert s[..|Bearer|] == Bearer;
    assert s[|Bearer|..] == gap + token;
    TrimStartSkipsGap(gap, token);
    TakeLineWhole(token);
  }

  lemma {:induction false} TrimStartSkipsGap(gap: string, token: string)
    requires forall i :: 0 <= i < |gap| ==> IsSpace(gap[i])
    requires token == [] || !IsSpace(token[0])
    ensures TrimStart(gap + token) == token
  {
    if |gap| > 0 {
      assert (gap + token)[1..] == gap[1..] + token;
      TrimStartSkipsGap(gap[1..], token);
    } else {
      assert gap + token == token;
    }
  }
}
