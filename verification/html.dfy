/** `escapeHtml` of assets/helpers.js: the five HTML-significant characters
    replaced by entities, everything else copied. */
module Html {

  /** The replacement of one character. */
  function EscapeChar(c: char): (r: string)
    ensures |r| >= 1
    ensures forall k | 0 <= k < |r| :: r[k] != '<' && r[k] != '>' && r[k] != '"' && r[k] != '\''
  {
    match c
    case '&' => "&amp;"
    case '<' => "&lt;"
    case '>' => "&gt;"
    case '"' => "&quot;"
    case '\'' => "&#39;"
    case _ => [c]
  }

  /** One of the five characters `escapeHtml` replaces. */
  predicate IsSpecial(c: char) {
    c == '&' || c == '<' || c == '>' || c == '"' || c == '\''
  }

  /** `escapeHtml`. */
  function EscapeHtml(s: string): (r: string)
    ensures |r| >= |s|
    ensures forall k | 0 <= k < |r| :: r[k] != '<' && r[k] != '>' && r[k] != '"' && r[k] != '\''
  {
    if s == [] then []
    else
      var head := EscapeChar(s[0]);
      var rest := EscapeHtml(s[1..]);
      head + rest
  }

  /** Escaping distributes over concatenation: every character is replaced
      on its own, in order. */
  lemma {:induction false} EscapeAppend(a: string, b: string)
    ensures EscapeHtml(a + b) == EscapeHtml(a) + EscapeHtml(b)
  {
    if a == [] {
      assert a + b == b;
    } else {
      assert (a + b)[1..] == a[1..] + b;
      EscapeAppend(a[1..], b);
    }
  }

  /** A string with none of the five characters is left unchanged. */
  lemma {:induction false} EscapeIdentity(s: string)
    requires forall k | 0 <= k < |s| :: !IsSpecial(s[k])
    ensures EscapeHtml(s) == s
  {
    if s != [] {
      EscapeIdentity(s[1..]);
      assert [s[0]] + s[1..] == s;
    }
  }

  /** The output is longer than the input exactly when some character was
      replaced. */
  lemma {:induction false} EscapeGrowsIffSpecial(s: string)
    ensures |EscapeHtml(s)| == |s| <==> forall k | 0 <= k < |s| :: !IsSpecial(s[k])
  {
    if s != [] {
      EscapeGrowsIffSpecial(s[1..]);
      assert forall k | 1 <= k < |s| :: s[k] == s[1..][k - 1];
    }
  }

  /** The decoder for the five entities: reading an entity gives its
      character back, any other character is copied. */
  function Unescape(s: string): string
    decreases |s|
  {
    if s == [] then []
    else if |s| >= 5 && s[..5] == "&amp;" then "&" + Unescape(s[5..])
    else if |s| >= 4 && s[..4] == "&lt;" then "<" + Unescape(s[4..])
    else if |s| >= 4 && s[..4] == "&gt;" then ">" + Unescape(s[4..])
    else if |s| >= 6 && s[..6] == "&quot;" then "\"" + Unescape(s[6..])
    else if |s| >= 5 && s[..5] == "&#39;" then "'" + Unescape(s[5..])
    else [s[0]] + Unescape(s[1..])
  }

  /** Decoding one escaped character in front of any text. */
  lemma UnescapeChar(c: char, t: string)
    ensures Unescape(EscapeChar(c) + t) == [c] + Unescape(t)
  {
    match c
    case '&' => UnescapeAmp(t);
    case '<' => UnescapeLt(t);
    case '>' => UnescapeGt(t);
    case '"' => UnescapeQuot(t);
    case '\'' => UnescapeApos(t);
    case _ => UnescapePlain(c, t);
  }

  /** "&amp;" decodes to '&'. */
  lemma UnescapeAmp(t: string)
    ensures Unescape("&amp;" + t) == "&" + Unescape(t)
  {
    var u := "&amp;" + t;
    assert u[..5] == "&amp;" && u[5..] == t;
  }

  /** "&lt;" decodes to '<'. */
  lemma UnescapeLt(t: string)
    ensures Unescape("&lt;" + t) == "<" + Unescape(t)
  {
    var u := "&lt;" + t;
    assert u[..4] == "&lt;" && u[4..] == t;
    assert |u| < 5 || u[..5] != "&amp;" by { assert u[1] == 'l'; }
  }

  /** "&gt;" decodes to '>'. */
  lemma UnescapeGt(t: string)
    ensures Unescape("&gt;" + t) == ">" + Unescape(t)
  {
    var u := "&gt;" + t;
    assert u[..4] == "&gt;" && u[4..] == t;
    assert u[1] == 'g';
    assert |u| < 5 || u[..5] != "&amp;" by { if |u| >= 5 { assert u[..5][1] == 'g'; } }
    assert u[..4] != "&lt;" by { assert u[..4][1] == 'g'; }
  }

  /** "&quot;" decodes to '"'. */
  lemma UnescapeQuot(t: string)
    ensures Unescape("&quot;" + t) == "\"" + Unescape(t)
  {
    var u := "&quot;" + t;
    assert u[..6] == "&quot;" && u[6..] == t;
    assert u[1] == 'q';
    assert u[..5] != "&amp;" by { assert u[..5][1] == 'q'; }
    assert u[..4] != "&lt;" by { assert u[..4][1] == 'q'; }
    assert u[..4] != "&gt;" by { assert u[..4][1] == 'q'; }
  }

  /** "&#39;" decodes to the apostrophe. */
  lemma UnescapeApos(t: string)
    ensures Unescape("&#39;" + t) == "'" + Unescape(t)
  {
    var u := "&#39;" + t;
    assert u[..5] == "&#39;" && u[5..] == t;
    assert u[1] == '#';
    assert u[..5] != "&amp;" by { assert u[..5][1] == '#'; }
    assert u[..4] != "&lt;" by { assert u[..4][1] == '#'; }
    assert u[..4] != "&gt;" by { assert u[..4][1] == '#'; }
    assert |u| < 6 || u[..6] != "&quot;" by { assert u[1] == '#'; }
  }

  /** Any other character is copied. */
  lemma UnescapePlain(c: char, t: string)
    requires !IsSpecial(c)
    ensures Unescape([c] + t) == [c] + Unescape(t)
  {
    var u := [c] + t;
    assert u[0] == c && u[1..] == t;
    assert c != '&';
    assert |u| < 4 || u[..4][0] == c;
    assert |u| < 5 || u[..5][0] == c;
    assert |u| < 6 || u[..6][0] == c;
  }

  /** Escaping loses nothing: decoding the output gives the input back. */
  lemma {:induction false} UnescapeEscape(s: string)
    ensures Unescape(EscapeHtml(s)) == s
  {
    if s != [] {
      UnescapeEscape(s[1..]);
      UnescapeChar(s[0], EscapeHtml(s[1..]));
      assert [s[0]] + s[1..] == s;
    }
  }

  /** Escaping is injective: different texts never escape alike. */
  lemma EscapeInjective(a: string, b: string)
    requires EscapeHtml(a) == EscapeHtml(b)
    ensures a == b
  {
    UnescapeEscape(a);
    UnescapeEscape(b);
  }
}
