/** The pure rules of assets/invoice.js: the property label casing, the
    street-number stripping, the name and required-field rule of the invoice
    form, and the designation and property type derived from a quote. */
module Invoice {
  import opened Domain
  import opened Areas
  import opened Text
  import opened Engine

  // ---------------------------------------------------------------------------
  // formatPropertyLabel

  /** The first word: its first character upper-cased, the rest lower-cased;
      an empty word stays empty. */
  function Capitalise(part: string): string {
    if part == "" then "" else Upper(part[..1]) + Lower(part[1..])
  }

  /** The casing applied to the pieces: the first capitalised, every later
      one upper-cased. */
  function CasedParts(parts: seq<string>): (r: seq<string>)
    ensures |r| == |parts|
    ensures |parts| > 0 ==> r[0] == Capitalise(parts[0])
    ensures forall k | 1 <= k < |parts| :: r[k] == Upper(parts[k])
  {
    seq(|parts|, k requires 0 <= k < |parts| => if k == 0 then Capitalise(parts[0]) else Upper(parts[k]))
  }

  /** `formatPropertyLabel`: empty for empty input, otherwise the words split
      on white-space runs, cased, and joined with single spaces. */
  function FormatPropertyLabel(value: string): string {
    if value == "" then "" else Join(CasedParts(SplitWs(value)), " ")
  }

  /** Casing keeps a piece free of white space, and empty exactly when it was. */
  lemma CasingKeepsPieces(part: string)
    ensures WsFree(part) ==> WsFree(Capitalise(part)) && WsFree(Upper(part))
    ensures (Capitalise(part) == "") == (part == "") && (Upper(part) == "") == (part == "")
  {
    if part != "" && WsFree(part) {
      assert WsFree(part[..1]);
      var low := Lower(part[1..]);
      forall k | 0 <= k < |low|
        ensures !IsWs(low[k])
      {
        assert part[1..][k] == part[k + 1];
      }
    }
  }

  /** Splitting the formatted label gives back the input's pieces, cased:
      the word count is kept and the words are rejoined with single spaces. */
  lemma FormatKeepsWords(value: string)
    requires value != ""
    ensures SplitWs(FormatPropertyLabel(value)) == CasedParts(SplitWs(value))
  {
    var parts := SplitWs(value);
    var cased := CasedParts(parts);
    forall k | 0 <= k < |parts|
      ensures WsFree(cased[k]) && (cased[k] == "" <==> parts[k] == "")
    {
      CasingKeepsPieces(parts[k]);
    }
    assert Splittable(cased);
    SplitJoin(cased);
  }

  /** The label is empty exactly when the input is. */
  lemma FormatEmptyIff(value: string)
    ensures FormatPropertyLabel(value) == "" <==> value == ""
  {
    if value != "" {
      var parts := SplitWs(value);
      var cased := CasedParts(parts);
      if |parts| == 1 {
        CasingKeepsPieces(parts[0]);
        assert parts[0] == value by {
          assert FirstWs(value, 0) == |value|;
        }
      } else {
        assert Join(cased, " ") == cased[0] + " " + Join(cased[1..], " ");
      }
    }
  }

  // ---------------------------------------------------------------------------
  // sanitizeStreetName

  predicate IsDigit(c: char) {
    '0' <= c <= '9'
  }

  /** The first non-digit position at or after `i`, or `|s|`. */
  function SkipDigits(s: string, i: nat): (r: nat)
    requires i <= |s|
    ensures i <= r <= |s|
    ensures forall k | i <= k < r :: IsDigit(s[k])
    ensures r < |s| ==> !IsDigit(s[r])
    decreases |s| - i
  {
    if i == |s| || !IsDigit(s[i]) then i else SkipDigits(s, i + 1)
  }

  /** A character equal to the ASCII lower-case letter `lower` ignoring case. */
  predicate SameLetter(c: char, lower: char)
    requires 'a' <= lower <= 'z'
  {
    c == lower || c as int == lower as int - 32
  }

  /** `s[i..]` starts with `word` (lower-case ASCII) ignoring case. */
  predicate StartsWithWord(s: string, i: nat, word: string)
    requires i <= |s| && forall k | 0 <= k < |word| :: 'a' <= word[k] <= 'z'
  {
    i + |word| <= |s| && forall k | 0 <= k < |word| :: SameLetter(s[i + k], word[k])
  }

  /** The length of the ordinal suffix at `i`, trying bis, ter, quater in
      that order; 0 when none matches. */
  function OrdinalLength(s: string, i: nat): (n: nat)
    requires i <= |s|
    ensures i + n <= |s|
    ensures n in {0, 3, 6}
  {
    if StartsWithWord(s, i, "bis") then 3
    else if StartsWithWord(s, i, "ter") then 3
    else if StartsWithWord(s, i, "quater") then 6
    else 0
  }

  /** Where the text left by the house-number pattern starts. The pattern,
      anchored at the start and case-insensitive, is: white space, one or
      more digits, white space, optionally bis, ter or quater, white space,
      optionally a comma or a hyphen, white space. It does not match when no
      digit follows the leading white space (the result is then 0);
      otherwise every part is taken greedily. */
  function NumberPrefixEnd(s: string): (e: nat)
    ensures e <= |s|
  {
    var i0 := SkipWs(s, 0);
    if i0 == |s| || !IsDigit(s[i0]) then 0
    else SuffixEnd(s, SkipWs(s, SkipDigits(s, i0)))
  }

  /** The part of the pattern after the digits and the white space that
      follows them: the optional ordinal, white space, the optional comma or
      hyphen, white space. */
  function SuffixEnd(s: string, i2: nat): (e: nat)
    requires i2 <= |s|
    ensures i2 <= e <= |s|
  {
    SeparatorEnd(s, i2 + OrdinalLength(s, i2))
  }

  /** The last part of the pattern from `i3`: white space, the optional
      comma or hyphen, white space. */
  function SeparatorEnd(s: string, i3: nat): (e: nat)
    requires i3 <= |s|
    ensures i3 <= e <= |s|
  {
    var i4 := SkipWs(s, i3);
    var i5 := if i4 < |s| && (s[i4] == ',' || s[i4] == '-') then i4 + 1 else i4;
    SkipWs(s, i5)
  }

  /** `sanitizeStreetName`: the leading house number removed, then trimmed. */
  function SanitizeStreetName(s: string): (r: string)
    ensures IsTrimmed(r)
    ensures s == "" ==> r == ""
    ensures |r| <= |s|
  {
    if s == "" then "" else Trim(s[NumberPrefixEnd(s)..])
  }

  /** A street that does not start with a number (after white space) is only
      trimmed. */
  lemma SanitizeWithoutNumber(s: string)
    requires var i := SkipWs(s, 0); i == |s| || !IsDigit(s[i])
    ensures SanitizeStreetName(s) == Trim(s)
  {
    if s != "" {
      assert s[0..] == s;
    }
  }

  /** A street that starts with letters (not an ordinal word) after a house
      number and one space loses the number: "12 rue X" becomes "rue X". */
  lemma SanitizeStripsNumber(num: string, street: string)
    requires num != "" && forall k | 0 <= k < |num| :: IsDigit(num[k])
    requires StreetStart(street)
    ensures SanitizeStreetName(num + " " + street) == Trim(street)
  {
    var s := num + " " + street;
    var n := |num|;
    assert s[n + 1..] == street;
    assert forall k | 0 <= k < n :: s[k] == num[k];
    assert s[n] == ' ' && s[n + 1] == street[0];
    DigitsThenSpace(s, n);
    assert SuffixEnd(s, n + 1) == n + 1 by {
      NoOrdinalAt(s, n + 1, street);
      SkipWsAt(s, n + 1, n + 1);
    }
    PrefixEndFromDigit(s, n + 1);
  }

  /** The ordinal form: "12 bis, rue X" becomes "rue X". */
  lemma SanitizeStripsNumberAndOrdinal(num: string, street: string)
    requires num != "" && forall k | 0 <= k < |num| :: IsDigit(num[k])
    requires StreetStart(street)
    ensures SanitizeStreetName(num + " bis, " + street) == Trim(street)
  {
    var s := num + " bis, " + street;
    var n := |num|;
    assert s[n + 6..] == street;
    assert forall k | 0 <= k < n :: s[k] == num[k];
    assert s[n] == ' ' && s[n + 1] == 'b' && s[n + 2] == 'i' && s[n + 3] == 's';
    assert s[n + 4] == ',' && s[n + 5] == ' ' && s[n + 6] == street[0];
    DigitsThenSpace(s, n);
    BisSuffix(s, n + 1);
    PrefixEndFromDigit(s, n + 1);
  }

  /** A run of white space, possibly empty. */
  predicate AllWs(w: string) {
    forall k | 0 <= k < |w| :: IsWs(w[k])
  }

  /** A run of ASCII digits, possibly empty. */
  predicate AllDigits(w: string) {
    forall k | 0 <= k < |w| :: IsDigit(w[k])
  }

  /** `w` spells the lower-case ASCII `word`, each letter in either case. */
  predicate SpelledIgnoringCase(w: string, word: string)
    requires forall k | 0 <= k < |word| :: 'a' <= word[k] <= 'z'
  {
    |w| == |word| && forall k | 0 <= k < |w| :: SameLetter(w[k], word[k])
  }

  /** bis, ter or quater, in any mix of ASCII cases. */
  predicate IsOrdinalWord(w: string) {
    SpelledIgnoringCase(w, "bis") || SpelledIgnoringCase(w, "ter") || SpelledIgnoringCase(w, "quater")
  }

  /** A street the pattern stops in front of, given the ordinal and the
      separator before it and everything (`between`) between the number and
      it: it does not start with white space; nor with a comma or a hyphen
      when no separator precedes it; nor with bis, ter or quater when
      neither an ordinal nor a separator precedes it; nor with a digit when
      nothing at all separates it from the number. */
  predicate StreetFollows(street: string, between: string, ord: string, sep: string) {
    street != "" ==>
      && !IsWs(street[0])
      && (sep == "" ==> street[0] != ',' && street[0] != '-')
      && (sep == "" && ord == "" ==> OrdinalLength(street, 0) == 0)
      && (between == "" ==> !IsDigit(street[0]))
  }

  /** Every shape the house-number pattern accepts is stripped: white
      space, a number, white space, an optional bis/ter/quater in any case,
      white space, an optional comma or hyphen, white space, and then the
      street, which is all that remains, trimmed. */
  lemma SanitizeStripsHouseNumber(w0: string, num: string, w1: string, ord: string, w2: string, sep: string, w3: string, street: string)
    requires AllWs(w0) && AllWs(w1) && AllWs(w2) && AllWs(w3)
    requires num != "" && AllDigits(num)
    requires ord == "" || IsOrdinalWord(ord)
    requires sep == "" || sep == "," || sep == "-"
    requires StreetFollows(street, w1 + ord + w2 + sep + w3, ord, sep)
    ensures SanitizeStreetName(w0 + num + w1 + ord + w2 + sep + w3 + street) == Trim(street)
  {
    var s := w0 + num + w1 + ord + w2 + sep + w3 + street;
    var t2 := w1 + (ord + (w2 + (sep + (w3 + street))));
    var a := |w0|;
    var b := a + |num|;
    Reassociate(w0, num, w1, ord, w2, sep, w3, street);
    assert a < |s| && SkipWs(s, 0) == a && IsDigit(s[a]) && s[a..] == num + t2 by {
      LeadingNumber(s, w0, num, t2);
    }
    assert SkipDigits(s, a) == b && s[b..] == t2 by {
      NoDigitFirst(w1, ord, w2, sep, w3, street);
      DigitsOver(s, a, num, t2);
    }
    assert SuffixEnd(s, SkipWs(s, b)) == |s| - |street| by {
      AfterNumber(s, b, w1, ord, w2, sep, w3, street);
    }
    SanitizeFromSteps(s, a, b, w0 + num + w1 + ord + w2 + sep + w3, street);
  }

  /** The pieces regrouped from the right. */
  lemma Reassociate(w0: string, num: string, w1: string, ord: string, w2: string, sep: string, w3: string, street: string)
    ensures w0 + num + w1 + ord + w2 + sep + w3 + street == w0 + (num + (w1 + (ord + (w2 + (sep + (w3 + street))))))
  {
  }

  /** Leading white space, then a number: the number starts where the white
      space ends. */
  lemma LeadingNumber(s: string, w0: string, num: string, rest: string)
    requires s == w0 + (num + rest) && AllWs(w0) && num != "" && AllDigits(num)
    ensures |w0| < |s| && SkipWs(s, 0) == |w0| && IsDigit(s[|w0|]) && s[|w0|..] == num + rest
  {
    assert (num + rest)[0] == num[0];
    DropPiece(s, 0, w0, num + rest);
    SkipWsOver(s, 0, w0, num + rest);
  }

  /** The digits of the number, followed by a non-digit or the end. */
  lemma DigitsOver(s: string, a: nat, num: string, rest: string)
    requires a <= |s| && s[a..] == num + rest && AllDigits(num)
    requires rest == "" || !IsDigit(rest[0])
    ensures SkipDigits(s, a) == a + |num| && s[a + |num|..] == rest
  {
    DropPiece(s, a, num, rest);
    SkipDigitsOver(s, a, num, rest);
  }

  /** The steps of the pattern put together: the street is what follows
      the end of the pattern. */
  lemma SanitizeFromSteps(s: string, a: nat, b: nat, p: string, street: string)
    requires a < |s| && SkipWs(s, 0) == a && IsDigit(s[a])
    requires a <= b <= |s| && SkipDigits(s, a) == b
    requires s == p + street
    requires SuffixEnd(s, SkipWs(s, b)) == |s| - |street|
    ensures SanitizeStreetName(s) == Trim(street)
  {
    assert s[|p|..] == street;
  }

  /** The pattern after the digits reads up to the street. */
  lemma AfterNumber(s: string, b: nat, w1: string, ord: string, w2: string, sep: string, w3: string, street: string)
    requires b <= |s| && s[b..] == w1 + (ord + (w2 + (sep + (w3 + street))))
    requires AllWs(w1) && AllWs(w2) && AllWs(w3)
    requires ord == "" || IsOrdinalWord(ord)
    requires sep == "" || sep == "," || sep == "-"
    requires StreetFollows(street, w1 + ord + w2 + sep + w3, ord, sep)
    ensures SuffixEnd(s, SkipWs(s, b)) == |s| - |street|
  {
    if ord != "" {
      OrdinalCase(s, b, w1, ord, w2, sep, w3, street);
    } else if sep != "" {
      assert s[b..] == (w1 + w2) + (sep + (w3 + street));
      AllWsAppend(w1, w2);
      SeparatorBranch(s, b, w1 + w2, sep, w3, street);
    } else {
      assert s[b..] == ((w1 + w2) + w3) + street;
      AllWsAppend(w1, w2);
      AllWsAppend(w1 + w2, w3);
      StreetBranch(s, b, (w1 + w2) + w3, street);
    }
  }

  /** White space, an ordinal word, then the separator part up to the
      street. */
  lemma OrdinalCase(s: string, b: nat, w1: string, ord: string, w2: string, sep: string, w3: string, street: string)
    requires b <= |s| && s[b..] == w1 + (ord + (w2 + (sep + (w3 + street))))
    requires AllWs(w1) && AllWs(w2) && AllWs(w3) && IsOrdinalWord(ord)
    requires sep == "" || sep == "," || sep == "-"
    requires street != "" ==> !IsWs(street[0])
    requires street != "" && sep == "" ==> street[0] != ',' && street[0] != '-'
    ensures SuffixEnd(s, SkipWs(s, b)) == |s| - |street|
  {
    OrdinalBranch(s, b, w1, ord, w2 + (sep + (w3 + street)));
    AfterOrdinal(s, b, b + |w1|, |ord|, w2, sep, w3, street);
  }

  /** With the white space and the ordinal read, the separator part ends
      the pattern at the street. */
  lemma AfterOrdinal(s: string, b: nat, c: nat, n: nat, w2: string, sep: string, w3: string, street: string)
    requires b <= c && c + n <= |s| && SkipWs(s, b) == c && OrdinalLength(s, c) == n
    requires s[c + n..] == w2 + (sep + (w3 + street))
    requires AllWs(w2) && AllWs(w3)
    requires sep == "" || sep == "," || sep == "-"
    requires street != "" ==> !IsWs(street[0])
    requires street != "" && sep == "" ==> street[0] != ',' && street[0] != '-'
    ensures SuffixEnd(s, SkipWs(s, b)) == |s| - |street|
  {
    assert SeparatorEnd(s, c + n) == |s| - |street| by {
      SeparatorPart(s, c + n, w2, sep, w3, street);
    }
    SuffixEndOf(s, c, n);
  }

  /** `SuffixEnd` once the ordinal's length is known. */
  lemma SuffixEndOf(s: string, i2: nat, n: nat)
    requires i2 <= |s| && OrdinalLength(s, i2) == n
    ensures i2 + n <= |s| && SuffixEnd(s, i2) == SeparatorEnd(s, i2 + n)
  {
  }

  /** White space, then an ordinal word: the ordinal is read whole. */
  lemma OrdinalBranch(s: string, b: nat, w1: string, ord: string, rest: string)
    requires b <= |s| && s[b..] == w1 + (ord + rest) && AllWs(w1) && IsOrdinalWord(ord)
    ensures b + |w1| + |ord| <= |s| && s[b + |w1| + |ord|..] == rest
    ensures SkipWs(s, b) == b + |w1|
    ensures OrdinalLength(s, b + |w1|) == |ord|
  {
    var c := b + |w1|;
    assert s[c..] == ord + rest by {
      DropPiece(s, b, w1, ord + rest);
    }
    assert SkipWs(s, b) == c by {
      assert ord[0] == (ord + rest)[0];
      SkipWsOver(s, b, w1, ord + rest);
    }
    assert OrdinalLength(s, c) == |ord| by {
      OrdinalRead(s, c, ord, rest);
    }
    DropPiece(s, c, ord, rest);
  }

  /** No ordinal, white space, then a comma or a hyphen. */
  lemma SeparatorBranch(s: string, b: nat, w: string, sep: string, w3: string, street: string)
    requires b <= |s| && s[b..] == w + (sep + (w3 + street)) && AllWs(w) && AllWs(w3)
    requires sep == "," || sep == "-"
    requires street != "" ==> !IsWs(street[0])
    ensures SuffixEnd(s, SkipWs(s, b)) == |s| - |street|
  {
    var e := WsToSeparator(s, b, w, sep, w3 + street);
    NoOrdinalAtSeparator(s, e);
    SuffixEndOf(s, e, 0);
    assert SeparatorEnd(s, e) == |s| - |street| by {
      assert s[e..] == "" + (sep + (w3 + street));
      SeparatorPart(s, e, "", sep, w3, street);
    }
  }

  /** No ordinal and no separator: white space up to the street, which
      starts with neither an ordinal, a comma nor a hyphen. */
  lemma StreetBranch(s: string, b: nat, w: string, street: string)
    requires b <= |s| && s[b..] == w + street && AllWs(w)
    requires street != "" ==> !IsWs(street[0]) && street[0] != ',' && street[0] != '-' && OrdinalLength(street, 0) == 0
    ensures SuffixEnd(s, SkipWs(s, b)) == |s| - |street|
  {
    var g := WsToStreet(s, b, w, street);
    if street != "" {
      NoOrdinalAt(s, g, street);
    }
    assert s[g..] == "" + ("" + ("" + street));
    SeparatorPart(s, g, "", "", "", street);
    SuffixEndOf(s, g, 0);
  }

  /** A white-space run up to a separator: the separator's position. */
  lemma WsToSeparator(s: string, b: nat, w: string, sep: string, rest: string) returns (e: nat)
    requires b <= |s| && s[b..] == w + (sep + rest) && AllWs(w)
    requires sep == "," || sep == "-"
    ensures e == b + |w| && e < |s| && SkipWs(s, b) == e && s[e] == sep[0] && s[e..] == sep + rest
  {
    e := b + |w|;
    DropPiece(s, b, w, sep + rest);
    SkipWsOver(s, b, w, sep + rest);
    assert s[e] == s[e..][0];
  }

  /** A white-space run up to the street: the street's position. */
  lemma WsToStreet(s: string, b: nat, w: string, street: string) returns (g: nat)
    requires b <= |s| && s[b..] == w + street && AllWs(w)
    requires street != "" ==> !IsWs(street[0])
    ensures g == |s| - |street| && SkipWs(s, b) == g && s[g..] == street
  {
    g := b + |w|;
    DropPiece(s, b, w, street);
    SkipWsOver(s, b, w, street);
  }

  /** From `d`: white space, the optional separator, white space, then the
      street. The separator step lands on the street's position. */
  lemma SeparatorPart(s: string, d: nat, w2: string, sep: string, w3: string, street: string)
    requires d <= |s| && s[d..] == w2 + (sep + (w3 + street))
    requires AllWs(w2) && AllWs(w3)
    requires sep == "" || sep == "," || sep == "-"
    requires street != "" ==> !IsWs(street[0])
    requires street != "" && sep == "" ==> street[0] != ',' && street[0] != '-'
    ensures SeparatorEnd(s, d) == |s| - |street|
  {
    var g := |s| - |street|;
    if sep != "" {
      var e := WsToSeparator(s, d, w2, sep, w3 + street);
      DropPiece(s, e, sep, w3 + street);
      var g' := WsToStreet(s, e + 1, w3, street);
    } else {
      assert s[d..] == (w2 + w3) + street;
      AllWsAppend(w2, w3);
      var g' := WsToStreet(s, d, w2 + w3, street);
      assert g < |s| ==> s[g] == street[0] by {
        if g < |s| {
          assert s[g] == s[g..][0];
        }
      }
      var g'' := WsToStreet(s, g, "", street);
    }
  }

  /** Dropping the first piece of a known suffix. */
  lemma DropPiece(s: string, i: nat, x: string, y: string)
    requires i <= |s| && s[i..] == x + y
    ensures i + |x| <= |s| && s[i + |x|..] == y
  {
    assert s[i + |x|..] == s[i..][|x|..];
  }

  /** White space skipped from `i` over a run that ends at a character that
      is not white space, or at the end, stops right after the run. */
  lemma SkipWsOver(s: string, i: nat, w: string, rest: string)
    requires i <= |s| && s[i..] == w + rest && AllWs(w)
    requires rest == "" || !IsWs(rest[0])
    ensures SkipWs(s, i) == i + |w|
  {
    assert forall k | 0 <= k < |w| :: s[i + k] == (w + rest)[k];
    if rest != "" {
      assert s[i + |w|] == (w + rest)[|w|];
    }
    SkipWsAt(s, i, i + |w|);
  }

  /** Digits skipped from `i` over a run that ends at a non-digit, or at the
      end, stop right after the run. */
  lemma SkipDigitsOver(s: string, i: nat, num: string, rest: string)
    requires i <= |s| && s[i..] == num + rest && AllDigits(num)
    requires rest == "" || !IsDigit(rest[0])
    ensures SkipDigits(s, i) == i + |num|
  {
    assert forall k | 0 <= k < |num| :: s[i + k] == (num + rest)[k];
    if rest != "" {
      assert s[i + |num|] == (num + rest)[|num|];
    }
    SkipDigitsAt(s, i, i + |num|);
  }

  /** Whatever follows the number starts with white space, a letter of the
      ordinal, a comma or a hyphen, or the street, none of which is a
      digit. */
  lemma NoDigitFirst(w1: string, ord: string, w2: string, sep: string, w3: string, street: string)
    requires AllWs(w1) && AllWs(w2) && AllWs(w3)
    requires ord == "" || IsOrdinalWord(ord)
    requires sep == "" || sep == "," || sep == "-"
    requires StreetFollows(street, w1 + ord + w2 + sep + w3, ord, sep)
    ensures var t := w1 + (ord + (w2 + (sep + (w3 + street))));
      t == "" || !IsDigit(t[0])
  {
    var t := w1 + (ord + (w2 + (sep + (w3 + street))));
    assert t == w1 + ord + w2 + sep + w3 + street;
    if w1 != "" {
      assert t[0] == w1[0];
    } else if ord != "" {
      assert t[0] == ord[0];
    } else if w2 != "" {
      assert t[0] == w2[0];
    } else if sep != "" {
      assert t[0] == sep[0];
    } else if w3 != "" {
      assert t[0] == w3[0];
    } else {
      assert t == street && w1 + ord + w2 + sep + w3 == "";
    }
  }

  /** Two white-space runs make one. */
  lemma AllWsAppend(x: string, y: string)
    requires AllWs(x) && AllWs(y)
    ensures AllWs(x + y)
  {
    assert forall k | |x| <= k < |x + y| :: (x + y)[k] == y[k - |x|];
  }

  /** An ordinal word at `i` is read whole. */
  lemma OrdinalRead(s: string, i: nat, ord: string, rest: string)
    requires i <= |s| && s[i..] == ord + rest && IsOrdinalWord(ord)
    ensures OrdinalLength(s, i) == |ord|
  {
    assert forall k | 0 <= k < |ord| :: s[i + k] == ord[k];
    if SpelledIgnoringCase(ord, "bis") {
      assert StartsWithWord(s, i, "bis");
    } else if SpelledIgnoringCase(ord, "ter") {
      assert SameLetter(s[i + 0], "ter"[0]) && !SameLetter(s[i + 0], "bis"[0]);
      assert StartsWithWord(s, i, "ter");
    } else {
      assert SameLetter(s[i + 0], "quater"[0]);
      assert !SameLetter(s[i + 0], "bis"[0]) && !SameLetter(s[i + 0], "ter"[0]);
      assert StartsWithWord(s, i, "quater");
    }
  }

  /** No ordinal is read at a comma or a hyphen. */
  lemma NoOrdinalAtSeparator(s: string, i: nat)
    requires i < |s| && (s[i] == ',' || s[i] == '-')
    ensures OrdinalLength(s, i) == 0
  {
    assert !SameLetter(s[i + 0], "bis"[0]) && !SameLetter(s[i + 0], "ter"[0]) && !SameLetter(s[i + 0], "quater"[0]);
  }

  /** Digits at the start, then one space, then no white space: the digits
      and the space are read. */
  lemma DigitsThenSpace(s: string, n: nat)
    requires 0 < n && n + 1 < |s| && s[n] == ' ' && !IsWs(s[n + 1])
    requires forall k | 0 <= k < n :: IsDigit(s[k])
    ensures IsDigit(s[0]) && SkipWs(s, SkipDigits(s, 0)) == n + 1
  {
    SkipDigitsAt(s, 0, n);
    SkipWsAt(s, n, n + 1);
  }

  /** "bis, " followed by no white space is the whole suffix. */
  lemma BisSuffix(s: string, i: nat)
    requires i + 5 < |s| && !IsWs(s[i + 5])
    requires s[i] == 'b' && s[i + 1] == 'i' && s[i + 2] == 's' && s[i + 3] == ',' && s[i + 4] == ' '
    ensures SuffixEnd(s, i) == i + 5
  {
    assert StartsWithWord(s, i, "bis");
    SkipWsAt(s, i + 3, i + 3);
    SkipWsAt(s, i + 4, i + 5);
  }

  /** For a string that starts with a digit the pattern reads the digits,
      the white space after them and then the suffix. */
  lemma PrefixEndFromDigit(s: string, i2: nat)
    requires s != "" && IsDigit(s[0]) && SkipWs(s, SkipDigits(s, 0)) == i2
    ensures NumberPrefixEnd(s) == SuffixEnd(s, i2)
    ensures SanitizeStreetName(s) == Trim(s[SuffixEnd(s, i2)..])
  {
    assert !IsWs(s[0]);
    SkipWsAt(s, 0, 0);
  }

  /** A street name that the pattern cannot eat into: it starts with a
      character that is neither white space, a digit, a comma nor a hyphen,
      and not with bis, ter or quater in any case. */
  predicate StreetStart(street: string) {
    && street != "" && !IsWs(street[0]) && !IsDigit(street[0]) && street[0] != ',' && street[0] != '-'
    && OrdinalLength(street, 0) == 0
  }

  /** No ordinal is read where the street starts. */
  lemma NoOrdinalAt(s: string, i: nat, street: string)
    requires i <= |s| && s[i..] == street && OrdinalLength(street, 0) == 0
    ensures OrdinalLength(s, i) == 0
  {
    assert forall k | 0 <= k < |street| :: s[i + k] == street[k];
  }

  /** The digit skip stops at the first non-digit. */
  lemma SkipDigitsAt(s: string, i: nat, n: nat)
    requires i <= n <= |s| && (n < |s| ==> !IsDigit(s[n]))
    requires forall k | i <= k < n :: IsDigit(s[k])
    ensures SkipDigits(s, i) == n
  {
  }

  // ---------------------------------------------------------------------------
  // validateInvoice

  /** The values of the invoice form, already trimmed. */
  datatype InvoiceForm = InvoiceForm(
    civ: string,
    company: string,
    first: string,
    last: string,
    allowNoFirst: bool,
    num: string,
    street: string,
    postal: string,
    city: string,
    designation: string,
    description: string,
    typeBien: string)

  /** The name rule: a company needs its name; the joint civilities, or a
      person without first name, need the last name; anyone else needs both
      first and last names. */
  predicate HasName(f: InvoiceForm) {
    if f.civ == "company" then |f.company| > 0
    else if f.civ == "both" || f.civ == "M_MME" then |f.last| > 0
    else if f.allowNoFirst then |f.last| > 0
    else |f.first| > 0 && |f.last| > 0
  }

  /** `validateInvoice`: the name rule and every address and description
      field filled in. */
  predicate InvoiceValid(f: InvoiceForm) {
    && HasName(f)
    && f.num != "" && f.street != "" && f.postal != "" && f.city != ""
    && f.designation != "" && f.description != "" && f.typeBien != ""
  }

  /** Outside the company civility the last name is always required, and a
      first and a last name always suffice. */
  lemma PersonNameRule(f: InvoiceForm)
    requires f.civ != "company"
    ensures HasName(f) ==> f.last != ""
    ensures f.first != "" && f.last != "" ==> HasName(f)
  {
  }

  /** The company civility looks at the company name only. */
  lemma CompanyNameRule(f: InvoiceForm, g: InvoiceForm)
    requires f.civ == "company" && g.civ == "company" && f.company == g.company
    ensures HasName(f) == HasName(g)
  {
  }

  /** Filling in a field never makes a valid form invalid: validity only
      asks for non-empty fields. */
  lemma ValidityIsMonotone(f: InvoiceForm, g: InvoiceForm)
    requires f.civ == g.civ && f.allowNoFirst == g.allowNoFirst
    requires f.company != "" ==> g.company != ""
    requires f.first != "" ==> g.first != ""
    requires f.last != "" ==> g.last != ""
    requires f.num != "" ==> g.num != ""
    requires f.street != "" ==> g.street != ""
    requires f.postal != "" ==> g.postal != ""
    requires f.city != "" ==> g.city != ""
    requires f.designation != "" ==> g.designation != ""
    requires f.description != "" ==> g.description != ""
    requires f.typeBien != "" ==> g.typeBien != ""
    ensures InvoiceValid(f) ==> InvoiceValid(g)
  {
  }

  // ---------------------------------------------------------------------------
  // syncInvoiceFromSelections

  const ErpDesignation: string := "ERP (incl. sonorisation, solarisation)"
  const DesignationSeparator: string := " \U{00B7} "

  /** The non-empty strings among `parts`, in order (`filter(Boolean)`). */
  function NonEmpty(parts: seq<string>): (r: seq<string>)
    ensures forall k | 0 <= k < |r| :: r[k] != ""
    ensures |r| <= |parts|
  {
    if parts == [] then []
    else if parts[0] == "" then NonEmpty(parts[1..])
    else [parts[0]] + NonEmpty(parts[1..])
  }

  /** The designation: "1 Pack " and the diagnostic names when any are
      counted, the ERP text when ERP is selected, joined with a middle dot. */
  function Designation(count: nat, names: seq<string>, erp: bool): string {
    var packPart := if count > 0 then "1 Pack " + Join(names, ", ") else "";
    var erpPart := if erp then ErpDesignation else "";
    Join(NonEmpty([packPart, erpPart]), DesignationSeparator)
  }

  /** The designation for each combination of pack and ERP. */
  lemma DesignationCases(count: nat, names: seq<string>, erp: bool)
    ensures var pack := "1 Pack " + Join(names, ", ");
      Designation(count, names, erp) ==
        if count > 0 && erp then pack + DesignationSeparator + ErpDesignation
        else if count > 0 then pack
        else if erp then ErpDesignation
        else ""
    ensures Designation(count, names, erp) == "" <==> count == 0 && !erp
  {
    var pack := "1 Pack " + Join(names, ", ");
    assert pack != "" && pack[0] == '1';
    assert ErpDesignation != "";
    var packPart := if count > 0 then pack else "";
    var erpPart := if erp then ErpDesignation else "";
    var both := [packPart, erpPart];
    assert both[1..] == [erpPart];
    assert [erpPart][1..] == [];
    var tail := NonEmpty([erpPart]);
    assert tail == (if erp then [ErpDesignation] else []) by {
      assert NonEmpty([erpPart][1..]) == [];
    }
    var kept := NonEmpty(both);
    assert kept == (if count > 0 then [pack] else []) + tail;
    if count > 0 && erp {
      assert kept == [pack, ErpDesignation];
      assert kept[1..] == [ErpDesignation];
      assert Join(kept, DesignationSeparator) == pack + DesignationSeparator + Join([ErpDesignation], DesignationSeparator);
    } else if count > 0 {
      assert kept == [pack];
    } else if erp {
      assert kept == [ErpDesignation];
    } else {
      assert kept == [];
    }
  }

  /** The type of property: CAVE and PARKING for those jobs, MAISON for a
      house, otherwise APPARTEMENT with the displayed pack label. */
  function TypeBien(job: JobType, propType: PropType, packLabel: string): string {
    match job
    case Cave => "CAVE"
    case Parking => "PARKING"
    case Normal =>
      if propType == House then "MAISON"
      else if packLabel != "" then "APPARTEMENT " + packLabel else "APPARTEMENT"
  }

  /** What the invoice form receives from the current quote. */
  datatype InvoiceFields = InvoiceFields(designation: string, typeBien: string, description: string)

  /** `syncInvoiceFromSelections`: the quote is computed for the request; the
      pack label is taken from the raw area field, which is not clamped. */
  function SyncInvoice(req: Request, selected: seq<Diagnostic>, prices: PriceTable): InvoiceFields {
    var q := CalculateTotal(req, selected, prices);
    var typeBien := TypeBien(req.job, req.propType, DisplayPackLabel(req.rawArea));
    InvoiceFields(Designation(q.summary.count, q.summary.names, q.erpSelected), typeBien, FormatPropertyLabel(typeBien))
  }

  /** An apartment's description: "Appartement" followed by the upper-cased
      pack label, for any one-word label. */
  lemma ApartmentDescription(shown: string)
    requires shown != "" && WsFree(shown)
    ensures FormatPropertyLabel("APPARTEMENT " + shown) == "Appartement " + Upper(shown)
  {
    ApartmentWord();
    ApartmentSpaces(shown);
    FormatTwoWords("APPARTEMENT", shown);
  }

  /** The first word of an apartment's type: one word of capitals,
      capitalised to "Appartement". */
  lemma ApartmentWord()
    ensures WsFree("APPARTEMENT") && Capitalise("APPARTEMENT") == "Appartement"
  {
    CapitalLetters("APPARTEMENT", "Appartement");
  }

  /** The apartment's type and description, each as a word, a space and the
      label. */
  lemma ApartmentSpaces(shown: string)
    ensures "APPARTEMENT " + shown == "APPARTEMENT" + " " + shown
    ensures "Appartement " + Upper(shown) == "Appartement" + " " + Upper(shown)
  {
  }

  /** Two white-space-free words joined by a space: the first is
      capitalised, the second upper-cased. */
  lemma FormatTwoWords(w: string, shown: string)
    requires w != "" && WsFree(w) && shown != "" && WsFree(shown)
    ensures FormatPropertyLabel(w + " " + shown) == Capitalise(w) + " " + Upper(shown)
  {
    SplitPair(w, shown);
    var cased := CasedParts([w, shown]);
    assert cased == [Capitalise(w), Upper(shown)];
    JoinPair(Capitalise(w), Upper(shown), " ");
  }

  /** Two white-space-free words joined by a space split back into the two. */
  lemma SplitPair(w: string, shown: string)
    requires w != "" && WsFree(w) && shown != "" && WsFree(shown)
    ensures SplitWs(w + " " + shown) == [w, shown]
  {
    var parts := [w, shown];
    assert Splittable(parts);
    JoinPair(w, shown, " ");
    SplitJoin(parts);
  }

  /** Joining two pieces puts the separator between them. */
  lemma JoinPair(a: string, b: string, sep: string)
    ensures Join([a, b], sep) == a + sep + b
  {
    assert [a, b][1..] == [b];
  }

  /** An apartment always gets its pack label (the label is never empty), and
      the description reads "Appartement" followed by the upper-cased label. */
  lemma ApartmentTypeAndDescription(req: Request, selected: seq<Diagnostic>, prices: PriceTable)
    requires req.job == Normal && req.propType == Apartment
    ensures var f := SyncInvoice(req, selected, prices);
      var shown := DisplayPackLabel(req.rawArea);
      && f.typeBien == "APPARTEMENT " + shown
      && f.description == "Appartement " + Upper(shown)
  {
    DisplayLabelWords(req.rawArea);
    ApartmentDescription(DisplayPackLabel(req.rawArea));
  }

  /** A cave, a parking or a house: the type is the fixed word and the
      description that word with only its first letter in upper case. */
  lemma OtherTypesAndDescriptions(req: Request, selected: seq<Diagnostic>, prices: PriceTable)
    requires req.job != Normal || req.propType == House
    ensures var f := SyncInvoice(req, selected, prices);
      match req.job
      case Cave => f.typeBien == "CAVE" && f.description == "Cave"
      case Parking => f.typeBien == "PARKING" && f.description == "Parking"
      case Normal => f.typeBien == "MAISON" && f.description == "Maison"
  {
    match req.job {
      case Cave => CaveWord();
      case Parking => ParkingWord();
      case Normal => HouseWord();
    }
  }

  /** The description of a cave. */
  lemma CaveWord()
    ensures FormatPropertyLabel("CAVE") == "Cave"
  {
    CapitalWord("CAVE", "Cave");
  }

  /** The description of a parking. */
  lemma ParkingWord()
    ensures FormatPropertyLabel("PARKING") == "Parking"
  {
    CapitalWord("PARKING", "Parking");
  }

  /** The description of a house. */
  lemma HouseWord()
    ensures FormatPropertyLabel("MAISON") == "Maison"
  {
    CapitalWord("MAISON", "Maison");
  }

  /** From position `i` on, `low` is `caps` lower-cased and `caps` is all
      ASCII capitals. */
  predicate LowerCaseFrom(low: string, caps: string, i: nat)
    decreases |caps| - i
  {
    if i >= |caps| then |low| == |caps|
    else i < |low| && 'A' <= caps[i] <= 'Z' && low[i] as int == caps[i] as int + 32
         && LowerCaseFrom(low, caps, i + 1)
  }

  /** Such a pair agrees character by character from `i` on. */
  lemma {:induction false} LowerCaseFromPointwise(low: string, caps: string, i: nat)
    requires i <= |caps| && LowerCaseFrom(low, caps, i)
    ensures |low| == |caps|
    ensures forall k | i <= k < |caps| :: 'A' <= caps[k] <= 'Z' && low[k] as int == caps[k] as int + 32
    decreases |caps| - i
  {
    if i < |caps| {
      LowerCaseFromPointwise(low, caps, i + 1);
    }
  }

  /** A word of ASCII capitals holds no white space, and capitalising it
      keeps its first letter and lower-cases the rest. */
  lemma CapitalLetters(w: string, cased: string)
    requires w != "" && cased != [] && cased[0] == w[0] && 'A' <= w[0] <= 'Z'
    requires LowerCaseFrom(cased, w, 1)
    ensures WsFree(w) && Capitalise(w) == cased
  {
    LowerCaseFromPointwise(cased, w, 1);
    assert Upper(w[..1]) == [w[0]] by {
      assert w[..1] == [w[0]] && [w[0]][1..] == [];
    }
    assert Lower(w[1..]) == cased[1..];
    assert cased == [cased[0]] + cased[1..];
  }

  /** A one-word label of ASCII capitals is described by its first letter
      followed by the rest in lower case. */
  lemma CapitalWord(w: string, cased: string)
    requires w != "" && cased != [] && cased[0] == w[0] && 'A' <= w[0] <= 'Z'
    requires LowerCaseFrom(cased, w, 1)
    ensures FormatPropertyLabel(w) == cased
  {
    CapitalLetters(w, cased);
    assert FirstWs(w, 0) == |w|;
    assert SplitWs(w) == [w];
    assert CasedParts([w]) == [Capitalise(w)];
  }

  /** Every displayed pack label is one non-empty word. */
  lemma DisplayLabelWords(area: real)
    ensures DisplayPackLabel(area) != "" && WsFree(DisplayPackLabel(area))
  {
  }

  /** The designation counts ERP only through its own text: the pack part
      lists exactly the quote's non-ERP names. */
  lemma DesignationOfNormalQuote(req: Request, selected: seq<Diagnostic>, prices: PriceTable)
    requires req.job == Normal
    ensures SyncInvoice(req, selected, prices).designation
      == Designation(|NonErp(selected)|, Names(NonErp(selected)), HasErp(selected))
  {
    NormalQuoteParts(req, selected, prices);
    SummaryIgnoresErp(req, selected, selected, prices);
  }
}
