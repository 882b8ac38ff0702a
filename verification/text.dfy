/** The JavaScript string primitives the invoice rules rely on: the `\s`
    character class (which is also what `trim` strips), `split(/\s+/)`,
    `join`, `trim`, and `toUpperCase` / `toLowerCase` on ASCII and
    Latin-1 letters. */
module Text {

  /** A JavaScript white-space or line-terminator character: the set matched
      by `\s` and removed by `String.prototype.trim`. */
  predicate IsWs(c: char) {
    || c == ' ' || c == '\t' || c == '\n' || c == '\r'
    || c == '\U{000B}' || c == '\U{000C}' || c == '\U{00A0}' || c == '\U{1680}'
    || ('\U{2000}' <= c <= '\U{200A}')
    || c == '\U{2028}' || c == '\U{2029}' || c == '\U{202F}' || c == '\U{205F}'
    || c == '\U{3000}' || c == '\U{FEFF}'
  }

  /** No white space at all. */
  predicate WsFree(s: string) {
    forall k | 0 <= k < |s| :: !IsWs(s[k])
  }

  // ---------------------------------------------------------------------------
  // Case mapping

  /** `toUpperCase` of one character: ASCII and Latin-1 letters (the sharp s
      becomes "SS", y-diaeresis and micro sign leave Latin-1); every other
      character is kept. */
  function UpperChar(c: char): (r: string)
    ensures 1 <= |r| <= 2
    ensures !IsWs(c) ==> WsFree(r)
  {
    if 'a' <= c <= 'z' then [(c as int - 32) as char]
    else if c == '\U{00DF}' then "SS"
    else if '\U{00E0}' <= c <= '\U{00FE}' && c != '\U{00F7}' then [(c as int - 32) as char]
    else if c == '\U{00FF}' then "\U{0178}"
    else if c == '\U{00B5}' then "\U{039C}"
    else [c]
  }

  /** `toLowerCase` of one character: ASCII and Latin-1 capitals; every other
      character is kept. */
  function LowerChar(c: char): (r: char)
    ensures IsWs(r) <==> IsWs(c)
  {
    if 'A' <= c <= 'Z' then (c as int + 32) as char
    else if '\U{00C0}' <= c <= '\U{00DE}' && c != '\U{00D7}' then (c as int + 32) as char
    else c
  }

  /** `s.toUpperCase()`. */
  function Upper(s: string): (r: string)
    ensures |s| <= |r| <= 2 * |s|
    ensures WsFree(s) ==> WsFree(r)
  {
    if s == [] then [] else UpperChar(s[0]) + Upper(s[1..])
  }

  /** `s.toLowerCase()`. */
  function Lower(s: string): (r: string)
    ensures |r| == |s|
    ensures forall k | 0 <= k < |s| :: r[k] == LowerChar(s[k])
  {
    seq(|s|, k requires 0 <= k < |s| => LowerChar(s[k]))
  }

  // ---------------------------------------------------------------------------
  // Scanning

  /** The first white-space position at or after `i`, or `|s|`. */
  function FirstWs(s: string, i: nat): (r: nat)
    requires i <= |s|
    ensures i <= r <= |s|
    ensures forall k | i <= k < r :: !IsWs(s[k])
    ensures r < |s| ==> IsWs(s[r])
    decreases |s| - i
  {
    if i == |s| || IsWs(s[i]) then i else FirstWs(s, i + 1)
  }

  /** The first non-white-space position at or after `i`, or `|s|`. */
  function SkipWs(s: string, i: nat): (r: nat)
    requires i <= |s|
    ensures i <= r <= |s|
    ensures forall k | i <= k < r :: IsWs(s[k])
    ensures r < |s| ==> !IsWs(s[r])
    decreases |s| - i
  {
    if i == |s| || !IsWs(s[i]) then i else SkipWs(s, i + 1)
  }

  /** The first non-white-space position at or before `j` scanning backwards:
      the end of `s[..j]` with trailing white space removed. */
  function SkipWsBack(s: string, j: nat): (r: nat)
    requires j <= |s|
    ensures r <= j
    ensures forall k | r <= k < j :: IsWs(s[k])
    ensures r > 0 ==> !IsWs(s[r - 1])
  {
    if j == 0 || !IsWs(s[j - 1]) then j else SkipWsBack(s, j - 1)
  }

  // ---------------------------------------------------------------------------
  // trim, split(/\s+/), join

  /** `s.trim()`. */
  function Trim(s: string): (r: string)
    ensures exists i, j | 0 <= i <= j <= |s| ::
      && r == s[i..j]
      && (forall k | 0 <= k < i :: IsWs(s[k]))
      && (forall k | j <= k < |s| :: IsWs(s[k]))
    ensures IsTrimmed(r)
  {
    var i := SkipWs(s, 0);
    var j := SkipWsBack(s, |s|);
    if j <= i then
      assert s[i..i] == "";
      ""
    else
      s[i..j]
  }

  /** No white space at either end. */
  predicate IsTrimmed(s: string) {
    s == [] || (!IsWs(s[0]) && !IsWs(s[|s| - 1]))
  }

  /** Trimming a trimmed string changes nothing. */
  lemma TrimIdempotent(s: string)
    ensures Trim(Trim(s)) == Trim(s)
  {
    var t := Trim(s);
    if t != [] {
      assert SkipWs(t, 0) == 0;
      assert SkipWsBack(t, |t|) == |t|;
      assert t[0..|t|] == t;
    }
  }

  /** `s.split(/\s+/)`: the pieces between maximal white-space runs. A
      leading or trailing run yields an empty first or last piece; inner
      pieces are never empty. */
  function SplitWs(s: string): (parts: seq<string>)
    ensures |parts| >= 1
    ensures forall k | 0 <= k < |parts| :: WsFree(parts[k])
    ensures forall k | 0 < k < |parts| - 1 :: parts[k] != ""
    ensures |parts| >= 2 ==> |s| > 0 && (parts[0] == "" <==> IsWs(s[0]))
    ensures |parts| == 1 <==> WsFree(s)
    decreases |s|
  {
    var i := FirstWs(s, 0);
    if i == |s| then
      [s]
    else
      var j := SkipWs(s, i);
      var rest := SplitWs(s[j..]);
      assert j < |s| ==> !IsWs(s[j..][0]);
      assert WsFree(s[..i]);
      [s[..i]] + rest
  }

  /** `parts.join(sep)`. */
  function Join(parts: seq<string>, sep: string): string {
    if |parts| == 0 then ""
    else if |parts| == 1 then parts[0]
    else parts[0] + sep + Join(parts[1..], sep)
  }

  /** Pieces that `split(/\s+/)` can produce: free of white space, none empty
      except possibly the first and the last. */
  predicate Splittable(parts: seq<string>) {
    && |parts| >= 1
    && (forall k | 0 <= k < |parts| :: WsFree(parts[k]))
    && (forall k | 0 < k < |parts| - 1 :: parts[k] != "")
  }

  /** Splitting a single-space join gives the pieces back. */
  lemma {:induction false} SplitJoin(parts: seq<string>)
    requires Splittable(parts)
    ensures SplitWs(Join(parts, " ")) == parts
  {
    if |parts| == 1 {
      assert FirstWs(parts[0], 0) == |parts[0]|;
    } else {
      var a := parts[0];
      var b := Join(parts[1..], " ");
      assert Splittable(parts[1..]) by {
        assert forall k | 0 <= k < |parts[1..]| :: parts[1..][k] == parts[k + 1];
      }
      SplitJoin(parts[1..]);
      assert b == "" || !IsWs(b[0]) by {
        if |parts| > 2 {
          JoinHead(parts[1..], " ");
        }
      }
      SplitCons(a, b);
      assert [a] + parts[1..] == parts;
    }
  }

  /** Splitting a white-space-free piece, one space and a rest that does not
      start with white space gives the piece and then the rest's pieces. */
  lemma SplitCons(a: string, b: string)
    requires WsFree(a) && (b == "" || !IsWs(b[0]))
    ensures SplitWs(a + " " + b) == [a] + SplitWs(b)
  {
    var s := a + " " + b;
    assert forall k | 0 <= k < |a| :: s[k] == a[k];
    assert s[|a|] == ' ';
    FirstWsAt(s, 0, |a|);
    SkipWsAt(s, |a|, |a| + 1);
    assert s[|a| + 1..] == b;
    assert s[..|a|] == a;
  }

  /** The scan stops at the first white space. */
  lemma FirstWsAt(s: string, i: nat, n: nat)
    requires i <= n < |s| && IsWs(s[n])
    requires forall k | i <= k < n :: !IsWs(s[k])
    ensures FirstWs(s, i) == n
  {
  }

  /** The skip stops at the first non-white-space character or the end. */
  lemma SkipWsAt(s: string, i: nat, n: nat)
    requires i <= n <= |s| && (n < |s| ==> !IsWs(s[n]))
    requires forall k | i <= k < n :: IsWs(s[k])
    ensures SkipWs(s, i) == n
  {
  }

  /** A join of two or more pieces starts with the first piece. */
  lemma JoinHead(parts: seq<string>, sep: string)
    requires |parts| >= 2 && parts[0] != ""
    ensures Join(parts, sep)[0] == parts[0][0]
  {
  }
}
