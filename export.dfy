/**
 * The text helpers of the export (src/App.tsx lines 58-69): `escapeHtml`, which makes text safe
 * to place in the exported HTML table, and `safeFileName`, which turns a scenario title into a
 * download name.
 */
module Export {
  import opened JsText

  // ---------------------------------------------------------------------------------------------
  // escapeHtml.

  /** `s.replace(/c/g, rep)`: every occurrence of `c` replaced by `rep`. */
  function ReplaceAll(s: string, c: char, rep: string): string {
    if s == [] then [] else (if s[0] == c then rep else [s[0]]) + ReplaceAll(s[1..], c, rep)
  }

  /** `escapeHtml`: the five replacements, ampersand first. */
  function EscapeHtml(s: string): string {
    ReplaceAll(ReplaceAll(ReplaceAll(ReplaceAll(ReplaceAll(s, '&', "&amp;"), '<', "&lt;"), '>', "&gt;"),
                          '"', "&quot;"), '\'', "&#39;")
  }

  /** The entity a single character becomes. */
  function EscapeChar(c: char): string {
    match c
    case '&' => "&amp;"
    case '<' => "&lt;"
    case '>' => "&gt;"
    case '"' => "&quot;"
    case '\'' => "&#39;"
    case _ => [c]
  }

  /** Character-by-character escaping: the reference for `EscapeHtml`. */
  function EscapeEach(s: string): string {
    if s == [] then [] else EscapeChar(s[0]) + EscapeEach(s[1..])
  }

  lemma {:induction false} ReplaceAllAppend(a: string, b: string, c: char, rep: string)
    ensures ReplaceAll(a + b, c, rep) == ReplaceAll(a, c, rep) + ReplaceAll(b, c, rep)
  {
    if a == [] {
      assert a + b == b;
    } else {
      assert (a + b)[0] == a[0];
      assert (a + b)[1..] == a[1..] + b;
      ReplaceAllAppend(a[1..], b, c, rep);
    }
  }
  /** Text without `c` is left alone. */
  lemma {:induction false} ReplaceAllAbsent(s: string, c: char, rep: string)
    requires c !in s
    ensures ReplaceAll(s, c, rep) == s
  {
    if s != [] {
      ReplaceAllAbsent(s[1..], c, rep);
    }
  }
  lemma ReplaceAllSingle(c: char, x: char, rep: string)
    ensures ReplaceAll([c], x, rep) == if c == x then rep else [c]
  {
    assert [c][1..] == [];
  }

  /** The `k`-th replacement of the chain: the character it looks for and the entity it writes. */
  function Special(k: nat): char
    requires k < 5
  {
    match k
    case 0 => '&'
    case 1 => '<'
    case 2 => '>'
    case 3 => '"'
    case 4 => '\''
  }

  function Entity(k: nat): string
    requires k < 5
  {
    match k
    case 0 => "&amp;"
    case 1 => "&lt;"
    case 2 => "&gt;"
    case 3 => "&quot;"
    case 4 => "&#39;"
  }

  /** A character after the first `k` replacements. */
  function EscapeCharUpTo(c: char, k: nat): string
    requires k <= 5
  {
    if k == 0 then [c] else if c == Special(k - 1) then Entity(k - 1) else EscapeCharUpTo(c, k - 1)
  }

  /** A text after the first `k` replacements. */
  function EscapeUpTo(s: string, k: nat): string
    requires k <= 5
  {
    if s == [] then [] else EscapeCharUpTo(s[0], k) + EscapeUpTo(s[1..], k)
  }

  /** No entity written earlier holds a character a later replacement looks for. */
  lemma EntityKeepsLater(j: nat, k: nat)
    requires j < k < 5
    ensures Special(k) !in Entity(j) && Special(k) != Special(j)
  {
  }

  /** A character the first `k` replacements changed became the entity of one of them. */
  lemma {:induction false} EntityOf(c: char, k: nat) returns (j: nat)
    requires k <= 5 && EscapeCharUpTo(c, k) != [c]
    ensures j < k && c == Special(j) && EscapeCharUpTo(c, k) == Entity(j)
  {
    if c == Special(k - 1) {
      j := k - 1;
    } else {
      j := EntityOf(c, k - 1);
    }
  }

  lemma EscapeCharStep(c: char, k: nat)
    requires k < 5
    ensures ReplaceAll(EscapeCharUpTo(c, k), Special(k), Entity(k)) == EscapeCharUpTo(c, k + 1)
  {
    if EscapeCharUpTo(c, k) != [c] {
      var j := EntityOf(c, k);
      EntityKeepsLater(j, k);
      ReplaceAllAbsent(Entity(j), Special(k), Entity(k));
    } else {
      ReplaceAllSingle(c, Special(k), Entity(k));
    }
  }

  lemma {:induction false} EscapeStep(s: string, k: nat)
    requires k < 5
    ensures ReplaceAll(EscapeUpTo(s, k), Special(k), Entity(k)) == EscapeUpTo(s, k + 1)
  {
    if s != [] {
      ReplaceAllAppend(EscapeCharUpTo(s[0], k), EscapeUpTo(s[1..], k), Special(k), Entity(k));
      EscapeCharStep(s[0], k);
      EscapeStep(s[1..], k);
    }
  }

  lemma {:induction false} EscapeUpToNone(s: string)
    ensures EscapeUpTo(s, 0) == s
  {
    if s != [] {
      EscapeUpToNone(s[1..]);
      assert s == [s[0]] + s[1..];
    }
  }

  lemma EscapeCharUpToAll(c: char)
    ensures EscapeCharUpTo(c, 5) == EscapeChar(c)
  {
    assert EscapeCharUpTo(c, 1) == if c == '&' then "&amp;" else [c];
    assert EscapeCharUpTo(c, 2) == if c == '<' then "&lt;" else EscapeCharUpTo(c, 1);
    assert EscapeCharUpTo(c, 3) == if c == '>' then "&gt;" else EscapeCharUpTo(c, 2);
    assert EscapeCharUpTo(c, 4) == if c == '"' then "&quot;" else EscapeCharUpTo(c, 3);
  }

  lemma {:induction false} EscapeUpToAll(s: string)
    ensures EscapeUpTo(s, 5) == EscapeEach(s)
  {
    if s != [] {
      EscapeUpToAll(s[1..]);
      EscapeCharUpToAll(s[0]);
    }
  }

  /** The chain of replacements is character-by-character escaping. */
  lemma EscapeHtmlIsEscapeEach(s: string)
    ensures EscapeHtml(s) == EscapeEach(s)
  {
    EscapeUpToNone(s);
    EscapeStep(s, 0);
    EscapeStep(s, 1);
    EscapeStep(s, 2);
    EscapeStep(s, 3);
    EscapeStep(s, 4);
    EscapeUpToAll(s);
  }

  /** A character that markup gives a meaning to, other than the ampersand. */
  predicate IsMarkup(c: char) {
    c == '<' || c == '>' || c == '"' || c == '\''
  }

  lemma {:induction false} EscapeEachNoMarkup(s: string)
    ensures forall i :: 0 <= i < |EscapeEach(s)| ==> !IsMarkup(EscapeEach(s)[i])
  {
    if s != [] {
      EscapeEachNoMarkup(s[1..]);
      var e := EscapeChar(s[0]);
      assert forall i :: 0 <= i < |e| ==> !IsMarkup(e[i]);
      assert EscapeEach(s) == e + EscapeEach(s[1..]);
    }
  }

  /** Escaped text contains no raw `<`, `>`, `"` or `'`. */
  lemma EscapeHtmlNoMarkup(s: string)
    ensures forall i :: 0 <= i < |EscapeHtml(s)| ==> !IsMarkup(EscapeHtml(s)[i])
  {
    EscapeHtmlIsEscapeEach(s);
    EscapeEachNoMarkup(s);
  }

  /** Decoding of the five entities the escape produces; any other character stands for itself. */
  function Unescape(s: string): string
    decreases |s|
  {
    if s == [] then []
    else if |s| >= 5 && s[..5] == "&amp;" then "&" + Unescape(s[5..])
    else if |s| >= 4 && s[..4] == "&lt;" then "<" + Unescape(s[4..])
    else if |s| >= 4 && s[..4] == "&gt;" then ">" + Unescape(s[4..])
    else if |s| >= 6 && s[..6] == "&quot;" then "\"" + Unescape(s[6..])
    else if |s| >= 5 && s[..5] == "&#39;" then "'" + Unescape(s[5..])
    else [s[0]] + Unescape(s[1..])
  }

  /** An entity followed by more text decodes to its character followed by the decoded rest. */
  lemma UnescapeEntity(c: char, rest: string)
    requires IsMarkup(c) || c == '&'
    ensures Unescape(EscapeChar(c) + rest) == [c] + Unescape(rest)
  {
    var t := EscapeChar(c) + rest;
    var e := EscapeChar(c);
    assert t[..|e|] == e;
    assert t[|e|..] == rest;
    if c == '&' {
      assert t[..5] == "&amp;";
    } else if c == '<' {
      assert t[1] == 'l';
      assert t[..4] == "&lt;";
    } else if c == '>' {
      assert t[1] == 'g';
      assert t[..4] == "&gt;";
    } else if c == '"' {
      assert t[1] == 'q';
      assert t[..6] == "&quot;";
    } else {
      assert t[1] == '#';
      assert t[..5] == "&#39;";
    }
  }

  lemma UnescapeChar(c: char, rest: string)
    ensures Unescape(EscapeChar(c) + rest) == [c] + Unescape(rest)
  {
    if IsMarkup(c) || c == '&' {
      UnescapeEntity(c, rest);
    } else {
      UnescapePlain(c, rest);
    }
  }

  /** A character that is not the start of an entity decodes to itself. */
  lemma UnescapePlain(c: char, rest: string)
    requires c != '&'
    ensures Unescape([c] + rest) == [c] + Unescape(rest)
  {
    var t := [c] + rest;
    assert t[0] == c && t[1..] == rest;
    assert |t| >= 4 ==> t[..4][0] == c;
    assert |t| >= 5 ==> t[..5][0] == c;
    assert |t| >= 6 ==> t[..6][0] == c;
  }

  /** Unescaping undoes the escape: no information is lost. */
  lemma {:induction false} UnescapeEscapeHtml(s: string)
    ensures Unescape(EscapeHtml(s)) == s
  {
    EscapeHtmlIsEscapeEach(s);
    UnescapeEscapeEach(s);
  }

  lemma {:induction false} UnescapeEscapeEach(s: string)
    ensures Unescape(EscapeEach(s)) == s
  {
    if s != [] {
      UnescapeChar(s[0], EscapeEach(s[1..]));
      UnescapeEscapeEach(s[1..]);
      assert s == [s[0]] + s[1..];
    }
  }

  // ---------------------------------------------------------------------------------------------
  // safeFileName.

  /** `trim`: leading and trailing white space and line terminators removed. */
  function TrimStart(s: string): (r: string)
    ensures |r| <= |s| && r == s[|s| - |r|..]
  {
    if s != [] && IsJsWhitespace(s[0]) then TrimStart(s[1..]) else s
  }

  function TrimEnd(s: string): (r: string)
    ensures |r| <= |s| && r == s[..|r|]
  {
    if s != [] && IsJsWhitespace(s[|s| - 1]) then TrimEnd(s[..|s| - 1]) else s
  }

  function Trim(s: string): string {
    TrimEnd(TrimStart(s))
  }

  /**
   * `toLowerCase` of one character, as far as the class `[a-z0-9]` can tell: ASCII capitals, the
   * dotted capital I (which lowers to "i" and a combining dot) and the Kelvin sign (which lowers to
   * "k"). Every other character is kept; its lower case lies outside `[a-z0-9]` exactly when the
   * character itself does, so the next step treats both alike.
   */
  function LowerChar(c: char): string {
    if 'A' <= c <= 'Z' then [(c as int + 32) as char]
    else if c == '\U{0130}' then "i\U{0307}"
    else if c == '\U{212A}' then "k"
    else [c]
  }

  function Lower(s: string): string {
    if s == [] then [] else LowerChar(s[0]) + Lower(s[1..])
  }

  /** The text after its leading run of characters outside `[a-z0-9]`. */
  function DropNonAlnum(s: string): (r: string)
    ensures |r| <= |s| && r == s[|s| - |r|..]
    ensures r == [] || IsLowerAlnum(r[0])
  {
    if s != [] && !IsLowerAlnum(s[0]) then DropNonAlnum(s[1..]) else s
  }

  /** A file-name character: `[a-z0-9-]`. */
  predicate IsNameChar(c: char) {
    IsLowerAlnum(c) || c == '-'
  }

  /** Made of file-name characters only. */
  predicate AllNameChars(s: string) {
    forall i :: 0 <= i < |s| ==> IsNameChar(s[i])
  }

  /** No two hyphens in a row. */
  predicate NoDoubleHyphen(s: string) {
    forall i :: 0 <= i < |s| - 1 ==> s[i] != '-' || s[i + 1] != '-'
  }

  lemma ConsNoDoubleHyphen(c: char, r: string)
    requires NoDoubleHyphen(r)
    requires c != '-' || r == [] || r[0] != '-'
    ensures NoDoubleHyphen([c] + r)
  {
    var t := [c] + r;
    assert forall i :: 1 <= i < |t| ==> t[i] == r[i - 1];
  }

  lemma AppendNameChars(a: string, b: string)
    requires AllNameChars(a) && AllNameChars(b)
    ensures AllNameChars(a + b)
  {
    assert forall i :: |a| <= i < |a + b| ==> (a + b)[i] == b[i - |a|];
  }

  /** A piece of a well-shaped text is well shaped. */
  lemma SliceShape(s: string, i: nat, j: nat)
    requires AllNameChars(s) && NoDoubleHyphen(s)
    requires i <= j <= |s|
    ensures AllNameChars(s[i..j]) && NoDoubleHyphen(s[i..j])
  {
    assert forall k :: 0 <= k < j - i ==> s[i..j][k] == s[i + k];
  }

  /** `replace(/[^a-z0-9]+/g, '-')`: every run of other characters becomes one hyphen. */
  function HyphenateRuns(s: string): (r: string)
    ensures AllNameChars(r) && NoDoubleHyphen(r)
    ensures s != [] ==> r != [] && r[0] == (if IsLowerAlnum(s[0]) then s[0] else '-')
    decreases |s|
  {
    if s == [] then []
    else if IsLowerAlnum(s[0]) then
      var rest := HyphenateRuns(s[1..]);
      ConsNoDoubleHyphen(s[0], rest);
      AppendNameChars([s[0]], rest);
      [s[0]] + rest
    else
      var rest := HyphenateRuns(DropNonAlnum(s[1..]));
      ConsNoDoubleHyphen('-', rest);
      AppendNameChars("-", rest);
      ['-'] + rest
  }

  /** The text after its leading hyphens. */
  function DropHyphens(s: string): (r: string)
    ensures |r| <= |s| && r == s[|s| - |r|..]
    ensures r == [] || r[0] != '-'
  {
    if s != [] && s[0] == '-' then DropHyphens(s[1..]) else s
  }

  /** The text before its trailing hyphens. */
  function DropTrailingHyphens(s: string): (r: string)
    ensures |r| <= |s| && r == s[..|r|]
    ensures r == [] || r[|r| - 1] != '-'
  {
    if s != [] && s[|s| - 1] == '-' then DropTrailingHyphens(s[..|s| - 1]) else s
  }

  /** `replace(/^-+|-+$/g, '')`. */
  function StripHyphens(s: string): string {
    DropTrailingHyphens(DropHyphens(s))
  }

  /** `replace(/-+/g, '-')`: every run of hyphens becomes one. */
  function CollapseHyphens(s: string): (r: string)
    ensures NoDoubleHyphen(r)
    ensures s != [] ==> r != [] && r[0] == s[0]
    decreases |s|
  {
    if s == [] then []
    else if s[0] == '-' then
      var rest := CollapseHyphens(DropHyphens(s[1..]));
      ConsNoDoubleHyphen('-', rest);
      ['-'] + rest
    else
      var rest := CollapseHyphens(s[1..]);
      ConsNoDoubleHyphen(s[0], rest);
      [s[0]] + rest
  }

  /** The title part of the name: trimmed, lower-cased, hyphenated and stripped of outer hyphens. */
  function NameBase(title: string): string {
    StripHyphens(HyphenateRuns(Lower(Trim(title))))
  }

  /** The base and the suffix joined by a hyphen, or the suffix alone when there is no base. */
  function Join(base: string, suffix: string): string {
    if base != [] then base + "-" + suffix else suffix
  }

  /** `safeFileName`. */
  function SafeFileName(title: string, suffix: string): string {
    CollapseHyphens(Join(NameBase(title), suffix))
  }

  /** The title the download names start from: an empty title falls back to "mobilization". */
  function NameTitle(title: string): string {
    if title == "" then "mobilization" else title
  }

  /** The name of the spreadsheet export. */
  function ExportFileName(title: string): string {
    SafeFileName(NameTitle(title), "simulation") + ".xls"
  }

  /** The name of the JSON backup. */
  function BackupFileName(title: string): string {
    SafeFileName(NameTitle(title), "backup") + ".json"
  }

  // What safeFileName promises.

  /** The base is made of `[a-z0-9-]`, has no double hyphen, and neither starts nor ends with one. */
  lemma NameBaseShape(title: string)
    ensures AllNameChars(NameBase(title)) && NoDoubleHyphen(NameBase(title))
    ensures NameBase(title) == [] || (NameBase(title)[0] != '-' && NameBase(title)[|NameBase(title)| - 1] != '-')
  {
    var h := HyphenateRuns(Lower(Trim(title)));
    var d := DropHyphens(h);
    SliceShape(h, |h| - |d|, |h|);
    assert d == h[|h| - |d|..|h|];
    var b := DropTrailingHyphens(d);
    SliceShape(d, 0, |b|);
    assert b == d[0..|b|];
  }

  /** Keeping only some hyphens of a text keeps its alphabet. */
  lemma {:induction false} CollapseHyphensNameChars(s: string)
    requires AllNameChars(s)
    ensures AllNameChars(CollapseHyphens(s))
    decreases |s|
  {
    if s != [] {
      var t := if s[0] == '-' then DropHyphens(s[1..]) else s[1..];
      assert AllNameChars(t) by {
        assert forall k :: 0 <= k < |t| ==> t[k] == s[|s| - |t| + k];
      }
      CollapseHyphensNameChars(t);
      AppendNameChars([s[0]], CollapseHyphens(t));
    }
  }

  /** Whenever the suffix is made of `[a-z0-9-]`, so is the whole name. */
  lemma SafeFileNameAlphabet(title: string, suffix: string)
    requires AllNameChars(suffix)
    ensures AllNameChars(SafeFileName(title, suffix))
  {
    NameBaseShape(title);
    var base := NameBase(title);
    if base != [] {
      AppendNameChars(base, "-");
      AppendNameChars(base + "-", suffix);
    }
    CollapseHyphensNameChars(Join(base, suffix));
  }

  /** The name never holds two hyphens in a row. */
  lemma SafeFileNameNoDoubleHyphen(title: string, suffix: string)
    ensures NoDoubleHyphen(SafeFileName(title, suffix))
  {
  }

  /** The name starts with a hyphen only when the title leaves no base and the suffix starts with one. */
  lemma SafeFileNameNoLeadingHyphen(title: string, suffix: string)
    requires suffix == [] || suffix[0] != '-'
    ensures SafeFileName(title, suffix) == [] || SafeFileName(title, suffix)[0] != '-'
  {
    NameBaseShape(title);
    var base := NameBase(title);
    if base != [] {
      assert (base + "-" + suffix)[0] == base[0];
    }
  }

  /** A suffix without double hyphens is left as it is. */
  lemma {:induction false} CollapseHyphensNoDouble(s: string)
    requires NoDoubleHyphen(s)
    ensures CollapseHyphens(s) == s
    decreases |s|
  {
    if s != [] {
      assert NoDoubleHyphen(s[1..]) by {
        assert forall k :: 0 <= k < |s| - 1 ==> s[1..][k] == s[k + 1];
      }
      if s[0] == '-' {
        assert DropHyphens(s[1..]) == s[1..] by {
          assert s[1..] == [] || s[1..][0] != '-';
        }
      }
      CollapseHyphensNoDouble(s[1..]);
    }
  }

  /** A character whose lower case contains a letter or a digit of `[a-z0-9]`. */
  predicate LowersToAlnum(c: char) {
    ('A' <= c <= 'Z') || IsLowerAlnum(c) || c == '\U{0130}' || c == '\U{212A}'
  }

  lemma {:induction false} LowerNoAlnum(s: string)
    requires forall i :: 0 <= i < |s| ==> !LowersToAlnum(s[i])
    ensures forall i :: 0 <= i < |Lower(s)| ==> !IsLowerAlnum(Lower(s)[i])
  {
    if s != [] {
      LowerNoAlnum(s[1..]);
      var a, b := LowerChar(s[0]), Lower(s[1..]);
      assert !LowersToAlnum(s[0]);
      assert a == [s[0]];
      assert Lower(s) == a + b;
      assert forall i :: 1 <= i < |a + b| ==> (a + b)[i] == b[i - 1];
    }
  }

  lemma {:induction false} DropNonAlnumNone(s: string)
    requires forall i :: 0 <= i < |s| ==> !IsLowerAlnum(s[i])
    ensures DropNonAlnum(s) == []
  {
    if s != [] {
      DropNonAlnumNone(s[1..]);
    }
  }

  lemma HyphenateNoAlnum(s: string)
    requires forall i :: 0 <= i < |s| ==> !IsLowerAlnum(s[i])
    ensures HyphenateRuns(s) == [] || HyphenateRuns(s) == "-"
  {
    if s != [] {
      DropNonAlnumNone(s[1..]);
    }
  }

  /** No character of `s[i..j]` lowers to a letter or digit when none of `s` does. */
  lemma SliceNoAlnum(s: string, i: nat, j: nat)
    requires forall k :: 0 <= k < |s| ==> !LowersToAlnum(s[k])
    requires i <= j <= |s|
    ensures forall k :: 0 <= k < j - i ==> !LowersToAlnum(s[i..j][k])
  {
    assert forall k :: 0 <= k < j - i ==> s[i..j][k] == s[i + k];
  }

  lemma TrimNoAlnum(title: string)
    requires forall i :: 0 <= i < |title| ==> !LowersToAlnum(title[i])
    ensures forall i :: 0 <= i < |Trim(title)| ==> !LowersToAlnum(Trim(title)[i])
  {
    var t1 := TrimStart(title);
    SliceNoAlnum(title, |title| - |t1|, |title|);
    assert t1 == title[|title| - |t1|..|title|];
    var t := TrimEnd(t1);
    SliceNoAlnum(t1, 0, |t|);
    assert t == t1[0..|t|];
  }

  /** A title without letters or digits gives the bare suffix. */
  lemma SafeFileNameBareSuffix(title: string, suffix: string)
    requires forall i :: 0 <= i < |title| ==> !LowersToAlnum(title[i])
    requires NoDoubleHyphen(suffix)
    ensures NameBase(title) == []
    ensures SafeFileName(title, suffix) == suffix
  {
    TrimNoAlnum(title);
    LowerNoAlnum(Trim(title));
    HyphenateNoAlnum(Lower(Trim(title)));
    CollapseHyphensNoDouble(suffix);
  }

  /** The letters and digits of a text, in order. */
  function Alnums(s: string): string {
    if s == [] then [] else (if IsLowerAlnum(s[0]) then [s[0]] else []) + Alnums(s[1..])
  }

  lemma AlnumsCons(c: char, r: string)
    ensures Alnums([c] + r) == (if IsLowerAlnum(c) then [c] else []) + Alnums(r)
  {
    assert ([c] + r)[0] == c;
    assert ([c] + r)[1..] == r;
  }

  lemma {:induction false} AlnumsAppend(a: string, b: string)
    ensures Alnums(a + b) == Alnums(a) + Alnums(b)
  {
    if a == [] {
      assert a + b == b;
    } else {
      AlnumsAppend(a[1..], b);
      assert a + b == [a[0]] + (a[1..] + b);
      AlnumsCons(a[0], a[1..] + b);
    }
  }

  lemma {:induction false} DropNonAlnumAlnums(s: string)
    ensures Alnums(DropNonAlnum(s)) == Alnums(s)
  {
    if s != [] && !IsLowerAlnum(s[0]) {
      DropNonAlnumAlnums(s[1..]);
    }
  }

  lemma {:induction false} DropHyphensAlnums(s: string)
    ensures Alnums(DropHyphens(s)) == Alnums(s)
  {
    if s != [] && s[0] == '-' {
      DropHyphensAlnums(s[1..]);
    }
  }

  lemma {:induction false} DropTrailingHyphensAlnums(s: string)
    ensures Alnums(DropTrailingHyphens(s)) == Alnums(s)
    decreases |s|
  {
    if s != [] && s[|s| - 1] == '-' {
      var s' := s[..|s| - 1];
      DropTrailingHyphensAlnums(s');
      assert s == s' + "-";
      AlnumsAppend(s', "-");
    }
  }

  lemma {:induction false} HyphenateRunsAlnums(s: string)
    ensures Alnums(HyphenateRuns(s)) == Alnums(s)
    decreases |s|
  {
    if s != [] {
      if IsLowerAlnum(s[0]) {
        HyphenateRunsAlnums(s[1..]);
      } else {
        HyphenateRunsAlnums(DropNonAlnum(s[1..]));
        DropNonAlnumAlnums(s[1..]);
      }
    }
  }

  lemma {:induction false} CollapseHyphensAlnums(s: string)
    ensures Alnums(CollapseHyphens(s)) == Alnums(s)
    decreases |s|
  {
    if s != [] {
      if s[0] == '-' {
        var t := DropHyphens(s[1..]);
        CollapseHyphensAlnums(t);
        DropHyphensAlnums(s[1..]);
        AlnumsCons('-', CollapseHyphens(t));
      } else {
        CollapseHyphensAlnums(s[1..]);
        AlnumsCons(s[0], CollapseHyphens(s[1..]));
      }
    }
  }

  /**
   * No letter or digit is lost or invented: the name's `[a-z0-9]` characters are those of the
   * lower-cased, trimmed title followed by those of the suffix.
   */
  lemma NameBaseAlnums(title: string)
    ensures Alnums(NameBase(title)) == Alnums(Lower(Trim(title)))
  {
    var h := HyphenateRuns(Lower(Trim(title)));
    HyphenateRunsAlnums(Lower(Trim(title)));
    DropHyphensAlnums(h);
    DropTrailingHyphensAlnums(DropHyphens(h));
  }

  /** Joining a base and a suffix with a hyphen and collapsing hyphen runs keeps both their letters and digits. */
  lemma JoinAlnums(base: string, suffix: string)
    ensures Alnums(CollapseHyphens(Join(base, suffix))) == Alnums(base) + Alnums(suffix)
  {
    CollapseHyphensAlnums(Join(base, suffix));
    if base != [] {
      AlnumsAppend(base + "-", suffix);
      AlnumsAppend(base, "-");
      AlnumsCons('-', []);
      assert ['-'] + [] == "-";
    }
  }

  lemma SafeFileNameKeepsAlnums(title: string, suffix: string)
    ensures Alnums(SafeFileName(title, suffix)) == Alnums(Lower(Trim(title))) + Alnums(suffix)
  {
    NameBaseAlnums(title);
    JoinAlnums(NameBase(title), suffix);
  }

  /** Made of letters and digits of `[a-z0-9]` only. */
  predicate AllLowerAlnum(s: string) {
    forall i :: 0 <= i < |s| ==> IsLowerAlnum(s[i])
  }

  lemma {:induction false} LowerOfLowerAlnum(s: string)
    requires AllLowerAlnum(s)
    ensures Lower(s) == s
  {
    if s != [] {
      LowerOfLowerAlnum(s[1..]);
      assert IsLowerAlnum(s[0]);
      assert s == [s[0]] + s[1..];
    }
  }

  lemma {:induction false} HyphenateOfLowerAlnum(s: string)
    requires AllLowerAlnum(s)
    ensures HyphenateRuns(s) == s
  {
    if s != [] {
      HyphenateOfLowerAlnum(s[1..]);
      assert IsLowerAlnum(s[0]);
      assert s == [s[0]] + s[1..];
    }
  }

  lemma TrimOfLowerAlnum(s: string)
    requires AllLowerAlnum(s)
    ensures Trim(s) == s
  {
    if s != [] {
      assert IsLowerAlnum(s[0]) && IsLowerAlnum(s[|s| - 1]);
      assert TrimStart(s) == s;
    }
  }

  lemma StripOfLowerAlnum(s: string)
    requires AllLowerAlnum(s)
    ensures StripHyphens(s) == s
  {
    if s != [] {
      assert IsLowerAlnum(s[0]) && IsLowerAlnum(s[|s| - 1]);
      assert DropHyphens(s) == s;
    }
  }

  /** A title already made of `[a-z0-9]` is its own base. */
  lemma NameBaseOfLowerAlnum(title: string)
    requires AllLowerAlnum(title)
    ensures NameBase(title) == title
  {
    TrimOfLowerAlnum(title);
    LowerOfLowerAlnum(title);
    HyphenateOfLowerAlnum(title);
    StripOfLowerAlnum(title);
  }

  lemma AppendNoDoubleHyphen(a: string, b: string)
    requires NoDoubleHyphen(a) && NoDoubleHyphen(b)
    requires a == [] || b == [] || a[|a| - 1] != '-' || b[0] != '-'
    ensures NoDoubleHyphen(a + b)
  {
    var t := a + b;
    assert forall i :: 0 <= i < |a| ==> t[i] == a[i];
    assert forall i :: |a| <= i < |t| ==> t[i] == b[i - |a|];
  }

  lemma LowerAlnumNoHyphen(s: string)
    requires AllLowerAlnum(s)
    ensures NoDoubleHyphen(s)
    ensures s == [] || s[|s| - 1] != '-'
  {
  }

  /** Such a title is joined to a suffix by one hyphen and nothing else changes. */
  lemma SafeFileNameOfLowerAlnum(title: string, suffix: string)
    requires title != [] && AllLowerAlnum(title)
    requires NoDoubleHyphen(suffix) && (suffix == [] || suffix[0] != '-')
    ensures SafeFileName(title, suffix) == title + "-" + suffix
  {
    NameBaseOfLowerAlnum(title);
    ConsNoDoubleHyphen('-', suffix);
    LowerAlnumNoHyphen(title);
    AppendNoDoubleHyphen(title, "-" + suffix);
    assert title + ("-" + suffix) == title + "-" + suffix;
    CollapseHyphensNoDouble(title + "-" + suffix);
  }

  /**
   * An untitled scenario's files are named after "mobilization": with the suffixes the editor uses,
   * "mobilization-simulation.xls" and "mobilization-backup.json".
   */
  lemma UntitledFileNames(title: string, suffix: string)
    requires title == ""
    requires suffix != [] && AllLowerAlnum(suffix)
    ensures SafeFileName(NameTitle(title), suffix) == "mobilization" + "-" + suffix
  {
    var t := NameTitle(title);
    assert AllLowerAlnum(t);
    assert NoDoubleHyphen(suffix);
    SafeFileNameOfLowerAlnum(t, suffix);
  }
}
