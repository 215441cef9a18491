/**
 * The Python `str` operations the scraper and the validators rely on,
 * written out over `seq<char>`: `isspace`, `strip`, `startswith`,
 * `endswith`, `in`, `splitlines`, `split()`, `split(" ")`, `replace`,
 * `lower`, `isalnum` and `isdigit`.
 */
module Text {

  /** Python's `str.isspace` for one character. */
  predicate IsSpace(c: char) {
    || c == ' '
    || ('\t' <= c <= '\r')
    || ('\U{1C}' <= c <= '\U{1F}')
    || c == '\U{85}' || c == '\U{A0}' || c == '\U{1680}'
    || ('\U{2000}' <= c <= '\U{200A}')
    || c == '\U{2028}' || c == '\U{2029}' || c == '\U{202F}' || c == '\U{205F}' || c == '\U{3000}'
  }

  /** The characters at which Python's `str.splitlines` ends a line. */
  predicate IsLineBreak(c: char) {
    || ('\n' <= c <= '\r')
    || ('\U{1C}' <= c <= '\U{1E}')
    || c == '\U{85}' || c == '\U{2028}' || c == '\U{2029}'
  }

  predicate NotLineBreak(c: char) {
    !IsLineBreak(c)
  }

  predicate AllSpace(s: string) {
    forall i :: 0 <= i < |s| ==> IsSpace(s[i])
  }

  predicate NoSpace(s: string) {
    forall i :: 0 <= i < |s| ==> !IsSpace(s[i])
  }

  predicate AllChars(P: char -> bool, s: string) {
    forall i :: 0 <= i < |s| ==> P(s[i])
  }

  /** A non-empty string that neither begins nor ends with whitespace. */
  predicate Trimmed(s: string) {
    s != [] && !IsSpace(s[0]) && !IsSpace(s[|s| - 1])
  }

  predicate StartsWith(s: string, p: string) {
    |p| <= |s| && s[..|p|] == p
  }

  predicate EndsWith(s: string, p: string) {
    |p| <= |s| && s[|s| - |p|..] == p
  }

  /** Python's `p in s` for strings: `p` occurs in `s` as a substring. */
  predicate Contains(s: string, p: string)
    decreases |s|
  {
    StartsWith(s, p) || (s != [] && Contains(s[1..], p))
  }

  /** An occurrence of `p` at index `i` makes `p in s` true. */
  lemma {:induction false} ContainsAt(s: string, p: string, i: nat)
    requires i + |p| <= |s| && s[i..i + |p|] == p
    ensures Contains(s, p)
  {
    if i > 0 {
      assert s[1..][i - 1..i - 1 + |p|] == s[i..i + |p|];
      ContainsAt(s[1..], p, i - 1);
    }
  }

  /** `p in s` is false when some character of `p` does not occur in `s`. */
  lemma {:induction false} NotContainsMissingChar(s: string, p: string, k: nat)
    requires k < |p| && p[k] !in s
    ensures !Contains(s, p)
  {
    if |p| <= |s| {
      assert s[..|p|][k] == s[k];
    }
    if s != [] {
      NotContainsMissingChar(s[1..], p, k);
    }
  }

  /** Drops the leading whitespace (Python's `lstrip()`). */
  function TrimLeft(s: string): (r: string)
    ensures |r| <= |s| && r == s[|s| - |r|..]
    ensures AllSpace(s[..|s| - |r|])
    ensures r == [] || !IsSpace(r[0])
  {
    if s != [] && IsSpace(s[0]) then
      var r := TrimLeft(s[1..]);
      assert s[..|s| - |r|] == [s[0]] + s[1..][..|s| - 1 - |r|];
      r
    else s
  }

  /** Drops the trailing whitespace (Python's `rstrip()`). */
  function TrimRight(s: string): (r: string)
    ensures |r| <= |s| && r == s[..|r|]
    ensures AllSpace(s[|r|..])
    ensures r == [] || !IsSpace(r[|r| - 1])
  {
    if s != [] && IsSpace(s[|s| - 1]) then
      var r := TrimRight(s[..|s| - 1]);
      assert s[|r|..] == s[..|s| - 1][|r|..] + [s[|s| - 1]];
      r
    else s
  }

  /** Python's `strip()`. */
  function Strip(s: string): (r: string)
    ensures r == [] || Trimmed(r)
  {
    TrimRight(TrimLeft(s))
  }

  /** `strip()` removes characters only from the ends, so a property of every character survives it. */
  lemma StripChars(P: char -> bool, s: string)
    requires AllChars(P, s)
    ensures AllChars(P, Strip(s))
  {
    var t := TrimLeft(s);
    AllCharsSlice(P, s, |s| - |t|, |s|);
    assert s[|s| - |t|..|s|] == t;
    var r := TrimRight(t);
    AllCharsSlice(P, t, 0, |r|);
    assert t[0..|r|] == r;
  }

  /** Index of the first line break of `s`, or `|s|` if there is none. */
  function BreakIndex(s: string): (k: nat)
    ensures k <= |s| && (k < |s| ==> IsLineBreak(s[k]))
    ensures forall j :: 0 <= j < k ==> !IsLineBreak(s[j])
  {
    if s == [] || IsLineBreak(s[0]) then 0 else 1 + BreakIndex(s[1..])
  }

  /**
   * The lines of `s`, cut at every line-break character. Unlike Python's
   * `splitlines()` this yields an empty line inside `\r\n` and after a
   * final break; every caller drops empty lines, so the difference is lost.
   */
  function Lines(s: string): (ls: seq<string>)
    decreases |s|
  {
    var k := BreakIndex(s);
    if k == |s| then [s] else [s[..k]] + Lines(s[k + 1..])
  }

  lemma {:induction false} LinesHaveNoBreak(s: string)
    ensures forall i :: 0 <= i < |Lines(s)| ==> AllChars(NotLineBreak, Lines(s)[i])
    decreases |s|
  {
    var k := BreakIndex(s);
    if k < |s| {
      LinesHaveNoBreak(s[k + 1..]);
    }
  }

  /** `[line.strip() for line in lines if line.strip()]` */
  function CleanLines(lines: seq<string>): (r: seq<string>)
    ensures forall i :: 0 <= i < |r| ==> Trimmed(r[i])
  {
    if lines == [] then []
    else
      var t := Strip(lines[0]);
      var rest := CleanLines(lines[1..]);
      if t == [] then rest
      else
        assert forall i :: 0 < i < |[t] + rest| ==> ([t] + rest)[i] == rest[i - 1];
        [t] + rest
  }

  /** `sep.join(ws)` */
  function Join(sep: string, ws: seq<string>): string {
    if ws == [] then [] else if |ws| == 1 then ws[0] else ws[0] + sep + Join(sep, ws[1..])
  }

  /** `' '.join(line.strip() for line in s.splitlines() if line.strip())` */
  function CleanText(s: string): string {
    Join(" ", CleanLines(Lines(s)))
  }

  lemma AllCharsConcat(P: char -> bool, a: string, b: string)
    requires AllChars(P, a) && AllChars(P, b)
    ensures AllChars(P, a + b)
  {
    forall i | 0 <= i < |a + b| ensures P((a + b)[i]) {
      if i >= |a| {
        assert (a + b)[i] == b[i - |a|];
      }
    }
  }

  lemma AllCharsSlice(P: char -> bool, s: string, i: nat, j: nat)
    requires i <= j <= |s| && AllChars(P, s)
    ensures AllChars(P, s[i..j])
  {
    forall m | 0 <= m < j - i ensures P(s[i..j][m]) {
      assert s[i..j][m] == s[i + m];
    }
  }

  /** A property of characters held by every part and by the separator holds of the joined string. */
  lemma {:induction false} JoinAllChars(P: char -> bool, sep: string, ws: seq<string>)
    requires AllChars(P, sep)
    requires forall k :: 0 <= k < |ws| ==> AllChars(P, ws[k])
    ensures AllChars(P, Join(sep, ws))
  {
    if |ws| > 1 {
      JoinAllChars(P, sep, ws[1..]);
      AllCharsConcat(P, ws[0], sep);
      AllCharsConcat(P, ws[0] + sep, Join(sep, ws[1..]));
    }
  }

  /** Joining trimmed parts with a space gives a trimmed string (or the empty string). */
  lemma {:induction false} JoinTrimmed(ws: seq<string>)
    requires forall k :: 0 <= k < |ws| ==> Trimmed(ws[k])
    ensures ws != [] ==> Trimmed(Join(" ", ws))
    ensures ws == [] ==> Join(" ", ws) == []
  {
    if |ws| > 1 {
      JoinTrimmed(ws[1..]);
      var j := Join(" ", ws[1..]);
      assert Join(" ", ws) == ws[0] + " " + j;
      assert (ws[0] + " " + j)[0] == ws[0][0];
      assert (ws[0] + " " + j)[|ws[0] + " " + j| - 1] == j[|j| - 1];
    }
  }

  /**
   * The text the rush-hour check compares has no line breaks and no
   * whitespace at either end.
   */
  lemma CleanTextShape(s: string)
    ensures AllChars(NotLineBreak, CleanText(s))
    ensures CleanText(s) == [] || Trimmed(CleanText(s))
  {
    var ls := Lines(s);
    LinesHaveNoBreak(s);
    var cl := CleanLines(ls);
    CleanLinesNoBreak(ls);
    JoinAllChars(NotLineBreak, " ", cl);
    JoinTrimmed(cl);
  }

  lemma {:induction false} CleanLinesNoBreak(lines: seq<string>)
    requires forall i :: 0 <= i < |lines| ==> AllChars(NotLineBreak, lines[i])
    ensures forall i :: 0 <= i < |CleanLines(lines)| ==> AllChars(NotLineBreak, CleanLines(lines)[i])
  {
    if lines != [] {
      CleanLinesNoBreak(lines[1..]);
      var t, rest := Strip(lines[0]), CleanLines(lines[1..]);
      if t != [] {
        StripChars(NotLineBreak, lines[0]);
        assert CleanLines(lines) == [t] + rest;
        forall i | 0 <= i < |[t] + rest|
          ensures AllChars(NotLineBreak, ([t] + rest)[i])
        {
          if i > 0 {
            assert ([t] + rest)[i] == rest[i - 1];
          }
        }
      }
    }
  }

  /** The longest prefix of `s` without whitespace. */
  function TakeWord(s: string): (w: string)
    ensures |w| <= |s| && w == s[..|w|] && NoSpace(w)
    ensures |w| < |s| ==> IsSpace(s[|w|])
    ensures s != [] && !IsSpace(s[0]) ==> w != []
  {
    if s == [] || IsSpace(s[0]) then [] else [s[0]] + TakeWord(s[1..])
  }

  /** Every piece is a non-empty run of non-whitespace characters. */
  predicate AllWords(ws: seq<string>) {
    forall k :: 0 <= k < |ws| ==> ws[k] != [] && NoSpace(ws[k])
  }

  lemma AllWordsCons(w: string, rest: seq<string>)
    requires w != [] && NoSpace(w) && AllWords(rest)
    ensures AllWords([w] + rest)
  {
    assert forall k :: 0 < k < |[w] + rest| ==> ([w] + rest)[k] == rest[k - 1];
  }

  /** Python's `s.split()`: the maximal runs of non-whitespace characters. */
  function Words(s: string): (ws: seq<string>)
    ensures AllWords(ws)
    decreases |s|
  {
    var t := TrimLeft(s);
    if t == [] then []
    else
      var w := TakeWord(t);
      var rest := Words(t[|w|..]);
      AllWordsCons(w, rest);
      [w] + rest
  }

  /** `" ".join(s.split())`: every whitespace run becomes one space, none at the ends. */
  function Collapse(s: string): string {
    Join(" ", Words(s))
  }

  /** Only single spaces between non-space characters. */
  predicate SingleSpaced(r: string) {
    forall i :: 0 <= i < |r| && IsSpace(r[i]) ==>
      r[i] == ' ' && 0 < i < |r| - 1 && !IsSpace(r[i - 1]) && !IsSpace(r[i + 1])
  }

  /** The non-whitespace characters of `s`, in order. */
  function NonSpace(s: string): string {
    if s == [] then [] else (if IsSpace(s[0]) then [] else [s[0]]) + NonSpace(s[1..])
  }

  lemma {:induction false} NonSpaceConcat(a: string, b: string)
    ensures NonSpace(a + b) == NonSpace(a) + NonSpace(b)
  {
    if a == [] {
      assert a + b == b;
    } else {
      var h := if IsSpace(a[0]) then [] else [a[0]];
      assert (a + b)[0] == a[0];
      assert (a + b)[1..] == a[1..] + b;
      assert NonSpace(a + b) == h + NonSpace(a[1..] + b);
      NonSpaceConcat(a[1..], b);
      assert h + (NonSpace(a[1..]) + NonSpace(b)) == (h + NonSpace(a[1..])) + NonSpace(b);
    }
  }

  lemma {:induction false} NonSpaceOfAllSpace(s: string)
    requires AllSpace(s)
    ensures NonSpace(s) == []
  {
    if s != [] {
      NonSpaceOfAllSpace(s[1..]);
    }
  }

  lemma {:induction false} NonSpaceOfNoSpace(s: string)
    requires NoSpace(s)
    ensures NonSpace(s) == s
  {
    if s != [] {
      NonSpaceOfNoSpace(s[1..]);
    }
  }

  /** Joining single words with single spaces keeps the result single-spaced. */
  lemma {:induction false} JoinWordsSingleSpaced(ws: seq<string>)
    requires forall k :: 0 <= k < |ws| ==> ws[k] != [] && NoSpace(ws[k])
    ensures SingleSpaced(Join(" ", ws))
    ensures ws != [] ==> Join(" ", ws) != [] && !IsSpace(Join(" ", ws)[0])
  {
    if |ws| == 1 {
      assert Join(" ", ws) == ws[0];
    } else if |ws| > 1 {
      JoinWordsSingleSpaced(ws[1..]);
      var w, j := ws[0], Join(" ", ws[1..]);
      var r := w + " " + j;
      assert Join(" ", ws) == r;
      forall i | 0 <= i < |r|
        ensures IsSpace(r[i]) ==> r[i] == ' ' && 0 < i < |r| - 1 && !IsSpace(r[i - 1]) && !IsSpace(r[i + 1])
      {
        if i < |w| {
          assert r[i] == w[i];
        } else if i == |w| {
          assert r[i - 1] == w[|w| - 1];
          assert r[i + 1] == j[0];
        } else {
          var k := i - |w| - 1;
          assert r[i] == j[k];
          if 0 < k < |j| - 1 {
            assert r[i - 1] == j[k - 1];
            assert r[i + 1] == j[k + 1];
          }
        }
      }
    }
  }

  /** The words of `s` joined without separator are exactly the non-space characters of `s`. */
  lemma JoinCons(sep: string, w: string, rest: seq<string>)
    ensures Join(sep, [w] + rest) == if rest == [] then w else w + sep + Join(sep, rest)
  {
    assert ([w] + rest)[1..] == rest;
  }

  lemma NonSpaceTrimLeft(s: string)
    ensures NonSpace(TrimLeft(s)) == NonSpace(s)
  {
    var t := TrimLeft(s);
    var pre := s[..|s| - |t|];
    assert s == pre + t;
    NonSpaceConcat(pre, t);
    NonSpaceOfAllSpace(pre);
  }

  lemma NonSpaceTakeWord(t: string)
    ensures NonSpace(t) == TakeWord(t) + NonSpace(t[|TakeWord(t)|..])
  {
    var w := TakeWord(t);
    assert t == w + t[|w|..];
    NonSpaceConcat(w, t[|w|..]);
    NonSpaceOfNoSpace(w);
  }

  lemma WordsUnfold(s: string)
    requires TrimLeft(s) != []
    ensures var t := TrimLeft(s); Words(s) == [TakeWord(t)] + Words(t[|TakeWord(t)|..])
  {
  }

  lemma {:induction false} WordsCoverNonSpace(s: string)
    ensures Join("", Words(s)) == NonSpace(s)
    decreases |s|
  {
    NonSpaceTrimLeft(s);
    var t := TrimLeft(s);
    if t != [] {
      var w := TakeWord(t);
      var rest := t[|w|..];
      WordsUnfold(s);
      NonSpaceTakeWord(t);
      WordsCoverNonSpace(rest);
      JoinCons("", w, Words(rest));
      assert w + [] == w;
    }
  }

  lemma {:induction false} NonSpaceJoinSpace(ws: seq<string>)
    requires forall k :: 0 <= k < |ws| ==> NoSpace(ws[k])
    ensures NonSpace(Join(" ", ws)) == Join("", ws)
  {
    if |ws| == 1 {
      NonSpaceOfNoSpace(ws[0]);
    } else if |ws| > 1 {
      NonSpaceJoinSpace(ws[1..]);
      NonSpaceConcat(ws[0] + " ", Join(" ", ws[1..]));
      NonSpaceConcat(ws[0], " ");
      NonSpaceOfNoSpace(ws[0]);
      assert NonSpace(" ") == [];
      assert Join("", ws) == ws[0] + "" + Join("", ws[1..]);
    }
  }

  /**
   * What collapsing whitespace means: the result is single-spaced and
   * keeps every non-whitespace character of `s`, in order.
   */
  lemma CollapseMeaning(s: string)
    ensures SingleSpaced(Collapse(s))
    ensures NonSpace(Collapse(s)) == NonSpace(s)
  {
    JoinWordsSingleSpaced(Words(s));
    NonSpaceJoinSpace(Words(s));
    WordsCoverNonSpace(s);
  }

  /** `s.split(" ")[0]`: everything before the first space character. */
  function FirstToken(s: string): (r: string)
    ensures StartsWith(s, r) && ' ' !in r
    ensures |r| < |s| ==> s[|r|] == ' '
  {
    if s == [] || s[0] == ' ' then [] else [s[0]] + FirstToken(s[1..])
  }

  /** `s.replace(c, "")` for a one-character `c`. */
  function RemoveChar(s: string, c: char): (r: string)
    ensures c !in r
    ensures forall x :: x != c ==> multiset(r)[x] == multiset(s)[x]
  {
    if s == [] then []
    else
      assert s == [s[0]] + s[1..];
      (if s[0] == c then [] else [s[0]]) + RemoveChar(s[1..], c)
  }

  /** `s.replace(pat, rep)`: non-overlapping occurrences, scanned from the left. */
  function ReplaceAll(s: string, pat: string, rep: string): string
    requires pat != []
    decreases |s|
  {
    if s == [] then []
    else if StartsWith(s, pat) then rep + ReplaceAll(s[|pat|..], pat, rep)
    else [s[0]] + ReplaceAll(s[1..], pat, rep)
  }

  /** A replacement of equal length keeps the length of the string. */
  lemma {:induction false} ReplaceAllLength(s: string, pat: string, rep: string)
    requires pat != [] && |rep| == |pat|
    ensures |ReplaceAll(s, pat, rep)| == |s|
    decreases |s|
  {
    if s != [] {
      if StartsWith(s, pat) {
        ReplaceAllLength(s[|pat|..], pat, rep);
      } else {
        ReplaceAllLength(s[1..], pat, rep);
      }
    }
  }

  /** Without an occurrence of the pattern, `replace` returns the string unchanged. */
  lemma {:induction false} ReplaceAllAbsent(s: string, pat: string, rep: string)
    requires pat != [] && !Contains(s, pat)
    ensures ReplaceAll(s, pat, rep) == s
    decreases |s|
  {
    if s != [] {
      ReplaceAllAbsent(s[1..], pat, rep);
      assert s == [s[0]] + s[1..];
    }
  }

  /** Python's `lower()` restricted to ASCII letters. */
  function LowerChar(c: char): char {
    if 'A' <= c <= 'Z' then (c as int - 'A' as int + 'a' as int) as char else c
  }

  function Lower(s: string): (r: string)
    ensures |r| == |s| && forall i :: 0 <= i < |s| ==> r[i] == LowerChar(s[i])
  {
    seq(|s|, i requires 0 <= i < |s| => LowerChar(s[i]))
  }

  predicate IsAsciiDigit(c: char) {
    '0' <= c <= '9'
  }

  predicate IsAsciiAlnum(c: char) {
    IsAsciiDigit(c) || ('a' <= c <= 'z') || ('A' <= c <= 'Z')
  }

  /** Python's `s.isalnum()` on ASCII: non-empty and only letters and digits. */
  predicate IsAlnum(s: string) {
    s != [] && forall i :: 0 <= i < |s| ==> IsAsciiAlnum(s[i])
  }

  /** Python's `s.isdigit()` on ASCII: non-empty and only digits. */
  predicate IsDigits(s: string) {
    s != [] && forall i :: 0 <= i < |s| ==> IsAsciiDigit(s[i])
  }
}
