/**
 * The JavaScript string built-ins the core calls: `trim`, a global one-character-class
 * `replace`, and `join('\n')` together with its inverse `split('\n')`.
 */
module JsText {

  /** ECMAScript WhiteSpace and LineTerminator: what `trim` and `Number` strip from both ends. */
  predicate IsWhiteSpace(c: char) {
    || c == '\t' || c == '\n' || c == '\U{0B}' || c == '\U{0C}' || c == '\r' || c == ' '
    || c == '\U{A0}' || c == '\U{1680}' || ('\U{2000}' <= c <= '\U{200A}')
    || c == '\U{2028}' || c == '\U{2029}' || c == '\U{202F}' || c == '\U{205F}'
    || c == '\U{3000}' || c == '\U{FEFF}'
  }

  /** Neither end of `s` is white space. */
  predicate IsTrimmed(s: string) {
    s == [] || (!IsWhiteSpace(s[0]) && !IsWhiteSpace(s[|s| - 1]))
  }

  /** `s.trim()`: white space is removed from both ends until neither end is white space. */
  function Trim(s: string): (r: string)
    ensures IsTrimmed(r)
    ensures IsTrimmed(s) ==> r == s
    ensures |r| <= |s|
    decreases |s|
  {
    if s != [] && IsWhiteSpace(s[0]) then Trim(s[1..])
    else if s != [] && IsWhiteSpace(s[|s| - 1]) then Trim(s[..|s| - 1])
    else s
  }

  /** Trimming leaves nothing exactly when the text is white space throughout. */
  lemma {:induction false} TrimEmpty(s: string)
    ensures Trim(s) == [] <==> forall i :: 0 <= i < |s| ==> IsWhiteSpace(s[i])
    decreases |s|
  {
    if s != [] && IsWhiteSpace(s[0]) {
      TrimEmpty(s[1..]);
      assert forall i :: 1 <= i < |s| ==> s[i] == s[1..][i - 1];
    } else if s != [] && IsWhiteSpace(s[|s| - 1]) {
      TrimEmpty(s[..|s| - 1]);
      assert forall i :: 0 <= i < |s| - 1 ==> s[i] == s[..|s| - 1][i];
    }
  }

  /** Every character of `s` is white space. */
  predicate AllWhiteSpace(s: string) {
    forall i :: 0 <= i < |s| ==> IsWhiteSpace(s[i])
  }

  /** `trim` cuts white space from both ends and nothing else: the result is a slice `s[a..b]` with white space before and after. */
  lemma {:induction false} TrimIsInfix(s: string) returns (a: nat, b: nat)
    ensures a <= b <= |s| && Trim(s) == s[a..b]
    ensures AllWhiteSpace(s[..a]) && AllWhiteSpace(s[b..])
    decreases |s|
  {
    if s != [] && IsWhiteSpace(s[0]) {
      var a', b' := TrimIsInfix(s[1..]);
      a, b := a' + 1, b' + 1;
      assert s[1..][a'..b'] == s[a..b];
      assert s[1..][b'..] == s[b..];
      assert forall i :: 1 <= i < a ==> s[..a][i] == s[1..][..a'][i - 1];
    } else if s != [] && IsWhiteSpace(s[|s| - 1]) {
      var init := s[..|s| - 1];
      a, b := TrimIsInfix(init);
      assert init[a..b] == s[a..b];
      assert init[..a] == s[..a];
      assert forall i :: 0 <= i < |s[b..]| - 1 ==> s[b..][i] == init[b..][i];
    } else {
      a, b := 0, |s|;
      assert s[0..|s|] == s;
    }
  }

  /** `s.replace(/[…]/g, replacement)` for a one-character class `pattern`: each matching character becomes `replacement`. */
  function ReplaceAll(s: string, pattern: char -> bool, replacement: char): (r: string)
    ensures |r| == |s|
    ensures forall i :: 0 <= i < |s| ==> r[i] == if pattern(s[i]) then replacement else s[i]
  {
    if s == [] then [] else [if pattern(s[0]) then replacement else s[0]] + ReplaceAll(s[1..], pattern, replacement)
  }

  /** `lines.join('\n')`. */
  function JoinLines(lines: seq<string>): string {
    if |lines| == 0 then ""
    else if |lines| == 1 then lines[0]
    else JoinLines(lines[..|lines| - 1]) + "\n" + lines[|lines| - 1]
  }

  /** The position of the last line break of `s`. */
  function LastNewline(s: string): (k: nat)
    requires '\n' in s
    ensures k < |s| && s[k] == '\n' && '\n' !in s[k + 1..]
  {
    if s[|s| - 1] == '\n' then |s| - 1 else LastNewline(s[..|s| - 1])
  }

  /** `s.split('\n')`: the pieces between line breaks, always at least one. */
  function SplitLines(s: string): (r: seq<string>)
    ensures |r| >= 1
    decreases |s|
  {
    if '\n' !in s then [s] else var k := LastNewline(s); SplitLines(s[..k]) + [s[k + 1..]]
  }

  /** Joining the pieces of a split gives the text back. */
  lemma {:induction false} JoinSplit(s: string)
    ensures JoinLines(SplitLines(s)) == s
    decreases |s|
  {
    if '\n' in s {
      var k := LastNewline(s);
      JoinSplit(s[..k]);
      var init := SplitLines(s[..k]);
      var lines := init + [s[k + 1..]];
      assert SplitLines(s) == lines;
      assert |lines| >= 2 && lines[..|lines| - 1] == init && lines[|lines| - 1] == s[k + 1..];
      assert JoinLines(lines) == s[..k] + "\n" + s[k + 1..];
      assert s == s[..k] + "\n" + s[k + 1..];
    }
  }

  /** Splitting joined lines that contain no line break gives the lines back. */
  lemma {:induction false} SplitJoin(lines: seq<string>)
    requires |lines| >= 1
    requires forall i :: 0 <= i < |lines| ==> '\n' !in lines[i]
    ensures SplitLines(JoinLines(lines)) == lines
  {
    if |lines| > 1 {
      var init := lines[..|lines| - 1];
      var last := lines[|lines| - 1];
      var j := JoinLines(init);
      var s := j + "\n" + last;
      SplitJoin(init);
      assert s[|j|] == '\n';
      var k := LastNewline(s);
      assert s[..k] == j && s[k + 1..] == last;
      assert lines == init + [last];
    }
  }
}
