/**
 * The clean-up rules the Amazon scraper applies to what it reads off a
 * product page: the brand regex, the reviews and ratings tokens, the
 * availability whitespace collapse, the main-image rewrite, the
 * best-seller-rank extraction and the store link. Page reads are inputs:
 * `None` is an element that is absent or has no text, `Raises` a read that
 * raised.
 */
module AmazonFields {
  import opened Wrappers
  import opened Text
  import opened AuditUtils

  // ---------------------------------------------------------------------
  // _brand_name: re.sub(r'^(Visit the\s+)?(.*?)(\s+Store)?$', r'\2', raw)
  // ---------------------------------------------------------------------

  const VisitThe: string := "Visit the"
  const StoreWord: string := "Store"

  /**
   * The length of the match of the optional `Visit the\s+` group at the
   * start of `s` (its `\s+` is greedy), or 0 when it does not match.
   */
  function VisitPrefix(s: string): (p: nat)
    ensures p <= |s|
    ensures p > 0 ==> p > |VisitThe| && StartsWith(s, VisitThe) && AllSpace(s[|VisitThe|..p]) && (p == |s| || !IsSpace(s[p]))
    ensures p == 0 ==> !(|s| > |VisitThe| && StartsWith(s, VisitThe) && IsSpace(s[|VisitThe|]))
  {
    if |s| > |VisitThe| && StartsWith(s, VisitThe) && IsSpace(s[|VisitThe|]) then
      var t := TrimLeft(s[|VisitThe|..]);
      assert s[|VisitThe|..][..|s| - |VisitThe| - |t|] == s[|VisitThe|..|s| - |t|];
      |s| - |t|
    else 0
  }

  /** `(\s+Store)?$` with the group present matches exactly `s[k..]`. */
  predicate StoreTail(s: string, k: nat) {
    k + |StoreWord| < |s| && AllSpace(s[k..|s| - |StoreWord|]) && s[|s| - |StoreWord|..] == StoreWord
  }

  /**
   * Where the lazy `(.*?)` group that starts at `k` ends: the first
   * position from which `(\s+Store)?$` matches the rest; `.` does not
   * cross a newline, so a newline first means no match.
   */
  function LazyEnd(s: string, k: nat): (e: Option<nat>)
    requires k <= |s|
    ensures e.Some? ==> k <= e.value <= |s| && (e.value == |s| || StoreTail(s, e.value))
    ensures e.Some? ==> forall j :: k <= j < e.value ==> s[j] != '\n' && !StoreTail(s, j)
    decreases |s| - k
  {
    if k == |s| || StoreTail(s, k) then Some(k)
    else if s[k] == '\n' then None
    else LazyEnd(s, k + 1)
  }

  /**
   * The substitution on an already stripped string. Where the greedy
   * prefix leaves the pattern without a match, shorter prefixes fail for
   * the same newline, so the string is left as it is.
   */
  function BrandCore(s: string): string {
    var p := VisitPrefix(s);
    match LazyEnd(s, p)
    case Some(k) => s[p..k]
    case None => s
  }

  /** `_brand_name`: the byline link's text with the decoration removed, or "N/A" without a link. */
  function BrandName(link: Option<string>): string {
    match link
    case None => "N/A"
    case Some(text) => Strip(BrandCore(Strip(text)))
  }

  /** Skipping positions that neither end the lazy group nor block it. */
  lemma {:induction false} LazyEndSkips(s: string, k: nat, j: nat)
    requires k <= j <= |s|
    requires forall i :: k <= i < j ==> s[i] != '\n' && !StoreTail(s, i)
    ensures LazyEnd(s, k) == LazyEnd(s, j)
    decreases j - k
  {
    if k < j {
      LazyEndSkips(s, k + 1, j);
    }
  }

  lemma StripTrimmed(s: string)
    requires Trimmed(s)
    ensures Strip(s) == s
  {
  }

  /** The prefix group takes "Visit the" and the one space before a word. */
  lemma VisitPrefixOf(x: string)
    requires x != [] && !IsSpace(x[0])
    ensures VisitPrefix(VisitThe + " " + x) == |VisitThe| + 1
  {
    var s := VisitThe + " " + x;
    assert StartsWith(s, VisitThe) by {
      assert s[..|VisitThe|] == VisitThe;
    }
    assert IsSpace(s[|VisitThe|]);
    assert |TrimLeft(s[|VisitThe|..])| == |x| by {
      assert s[|VisitThe|..] == [' '] + x;
      assert TrimLeft([' '] + x) == TrimLeft(x);
      assert TrimLeft(x) == x;
    }
  }

  /** The suffix group matches a final " Store". */
  lemma StoreTailOf(y: string)
    ensures StoreTail(y + " " + StoreWord, |y|)
  {
    var s := y + " " + StoreWord;
    assert s[|y|..|s| - |StoreWord|] == " ";
    assert s[|s| - |StoreWord|..] == StoreWord;
  }

  /** The suffix group cannot start before a non-space character that precedes it. */
  lemma NoStoreTailBefore(s: string, i: nat, c: nat)
    requires i <= c && c + |StoreWord| < |s| && !IsSpace(s[c])
    ensures !StoreTail(s, i)
  {
  }

  lemma SliceOfConcat(a: string, b: string, c: string)
    ensures (a + b + c)[|a|..|a| + |b|] == b
  {
  }

  /** The groups of the brand pattern, located: the lazy group is `s[p..e]`. */
  lemma BrandCoreAt(s: string, p: nat, e: nat)
    requires VisitPrefix(s) == p && p <= e <= |s| && StoreTail(s, e)
    requires forall i :: p <= i < e ==> s[i] != '\n' && !StoreTail(s, i)
    ensures BrandCore(s) == s[p..e]
  {
    LazyEndSkips(s, p, e);
  }

  /** `"Visit the <brand> Store"` */
  function StoreLinkText(b: string): string {
    VisitThe + " " + b + " " + StoreWord
  }

  lemma StoreLinkTrimmed(b: string)
    requires Trimmed(b)
    ensures Strip(StoreLinkText(b)) == StoreLinkText(b)
  {
    var s := StoreLinkText(b);
    assert s[0] == VisitThe[0];
    assert s[|s| - 1] == StoreWord[|StoreWord| - 1];
    StripTrimmed(s);
  }

  lemma StoreLinkPrefix(b: string)
    requires Trimmed(b)
    ensures VisitPrefix(StoreLinkText(b)) == |VisitThe| + 1
  {
    var x := b + " " + StoreWord;
    assert StoreLinkText(b) == VisitThe + " " + x;
    VisitPrefixOf(x);
  }

  lemma StoreLinkBrand(b: string)
    ensures |StoreLinkText(b)| == |VisitThe| + |b| + |StoreWord| + 2
    ensures StoreLinkText(b)[|VisitThe| + 1..|VisitThe| + 1 + |b|] == b
    ensures StoreTail(StoreLinkText(b), |VisitThe| + 1 + |b|)
  {
    SliceOfConcat(VisitThe + " ", b, " " + StoreWord);
    assert StoreLinkText(b) == (VisitThe + " ") + b + (" " + StoreWord);
    StoreTailOf(VisitThe + " " + b);
  }

  lemma StoreLinkLazy(b: string)
    requires Trimmed(b) && '\n' !in b
    ensures var s, p := StoreLinkText(b), |VisitThe| + 1;
      forall i :: p <= i < p + |b| ==> s[i] != '\n' && !StoreTail(s, i)
  {
    var s, p := StoreLinkText(b), |VisitThe| + 1;
    StoreLinkBrand(b);
    var e := p + |b|;
    forall i | p <= i < e
      ensures s[i] != '\n' && !StoreTail(s, i)
    {
      assert s[i] == s[p..e][i - p] == b[i - p];
      assert s[e - 1] == s[p..e][|b| - 1] == b[|b| - 1];
      NoStoreTailBefore(s, i, e - 1);
    }
  }

  /** A store link `"Visit the <brand> Store"` yields the brand. */
  lemma {:induction false} BrandOfStoreLink(b: string)
    requires Trimmed(b) && '\n' !in b
    ensures BrandName(Some(StoreLinkText(b))) == b
  {
    StoreLinkTrimmed(b);
    StoreLinkCore(b);
    StripTrimmed(b);
  }

  lemma StoreLinkCore(b: string)
    requires Trimmed(b) && '\n' !in b
    ensures BrandCore(StoreLinkText(b)) == b
  {
    StoreLinkPrefix(b);
    StoreLinkBrand(b);
    StoreLinkLazy(b);
    BrandCoreAt(StoreLinkText(b), |VisitThe| + 1, |VisitThe| + 1 + |b|);
  }

  /** A plain brand, without the prefix or the suffix, is kept as it is. */
  lemma {:induction false} BrandPlain(b: string)
    requires Trimmed(b) && '\n' !in b && !StartsWith(b, VisitThe) && !EndsWith(b, StoreWord)
    ensures BrandName(Some(b)) == b
  {
    StripTrimmed(b);
    assert VisitPrefix(b) == 0;
    forall i | 0 <= i < |b|
      ensures b[i] != '\n' && !StoreTail(b, i)
    {
    }
    LazyEndSkips(b, 0, |b|);
    assert b[0..|b|] == b;
  }

  // ---------------------------------------------------------------------
  // _reviews and _ratings
  // ---------------------------------------------------------------------

  /** The first token of a string that starts with a space-free word and a space. */
  lemma FirstTokenOf(n: string, rest: string)
    requires ' ' !in n
    ensures FirstToken(n + " " + rest) == n
  {
    var s := n + " " + rest;
    var r := FirstToken(s);
    assert s[|n|] == ' ';
    assert r == s[..|r|];
    assert s[..|n|] == n;
  }

  /** `_reviews`: the first space-separated token of the title attribute, "0" when there is none or the wait raises. */
  function Reviews(title: Attempt<Option<string>>): string {
    match title
    case Raises => "0"
    case Returns(None) => "0"
    case Returns(Some(t)) => if t == "" then "0" else Strip(FirstToken(t))
  }

  /** A title "4.3 out of 5 stars" gives "4.3". */
  lemma ReviewsOfTitle(n: string, rest: string)
    requires ' ' !in n
    ensures Reviews(Returns(Some(n + " " + rest))) == Strip(n)
  {
    FirstTokenOf(n, rest);
  }

  /** `_ratings`: the first token of the ratings text without its commas, "0" without text. */
  function Ratings(text: Option<string>): string {
    match text
    case None => "0"
    case Some(t) => if t == "" then "0" else Strip(RemoveChar(FirstToken(t), ','))
  }

  /** No ratings count keeps a thousands separator. */
  lemma RatingsHaveNoComma(text: Option<string>)
    ensures ',' !in Ratings(text)
  {
    if text.Some? && text.value != "" {
      var s := RemoveChar(FirstToken(text.value), ',');
      assert AllChars(c => c != ',', s);
      StripChars(c => c != ',', s);
      var r := Strip(s);
      assert forall i :: 0 <= i < |r| ==> r[i] != ',';
    }
  }

  /** A text "1,234 ratings" gives "1234". */
  lemma RatingsOfText(n: string, rest: string)
    requires ' ' !in n
    ensures Ratings(Some(n + " " + rest)) == Strip(RemoveChar(n, ','))
  {
    var t := n + " " + rest;
    assert t[|n|] == ' ';
    FirstTokenOf(n, rest);
    assert FirstToken(t) == n;
  }

  // ---------------------------------------------------------------------
  // _availability
  // ---------------------------------------------------------------------

  /** `_availability`: the text with newlines made spaces and whitespace runs collapsed, "N/A" without text. */
  function Availability(text: Option<string>): string {
    match text
    case None => "N/A"
    case Some(t) => if t == "" then "N/A" else Collapse(ReplaceAll(t, "\n", " "))
  }

  /** Replacing newlines by spaces keeps the non-whitespace characters. */
  lemma {:induction false} ReplaceNewlineNonSpace(s: string)
    ensures NonSpace(ReplaceAll(s, "\n", " ")) == NonSpace(s)
    decreases |s|
  {
    if s != [] {
      ReplaceNewlineNonSpace(s[1..]);
      var r := ReplaceAll(s[1..], "\n", " ");
      if StartsWith(s, "\n") {
        assert s[0] == '\n';
        assert NonSpace(" " + r) == NonSpace(r);
      } else {
        assert NonSpace([s[0]] + r) == (if IsSpace(s[0]) then [] else [s[0]]) + NonSpace(r);
      }
    }
  }

  /** The availability text is single-spaced and keeps every other character of the page text, in order. */
  lemma AvailabilityMeaning(t: string)
    requires t != ""
    ensures SingleSpaced(Availability(Some(t)))
    ensures NonSpace(Availability(Some(t))) == NonSpace(t)
  {
    CollapseMeaning(ReplaceAll(t, "\n", " "));
    ReplaceNewlineNonSpace(t);
  }

  // ---------------------------------------------------------------------
  // _main_img_url
  // ---------------------------------------------------------------------

  /** `src and src.endswith(".jpg")` for one `get_attribute("src")`. */
  predicate IsJpg(src: Attempt<Option<string>>) {
    src.Returns? && src.value.Some? && EndsWith(src.value.value, ".jpg")
  }

  /** The position of the first JPEG source, when no read before it raised. */
  function FirstJpg(srcs: seq<Attempt<Option<string>>>): (i: Option<nat>)
    ensures i.Some? ==> i.value < |srcs| && IsJpg(srcs[i.value])
    ensures i.Some? ==> forall j :: 0 <= j < i.value ==> srcs[j].Returns? && !IsJpg(srcs[j])
    ensures i.None? ==> forall j :: 0 <= j < |srcs| && IsJpg(srcs[j]) ==> exists m :: 0 <= m < j && srcs[m].Raises?
    decreases |srcs|
  {
    if srcs == [] then None
    else if srcs[0].Raises? then None
    else if IsJpg(srcs[0]) then Some(0)
    else
      var r := FirstJpg(srcs[1..]);
      if r.Some? then Some(r.value + 1)
      else
        assert forall j :: 1 <= j < |srcs| && IsJpg(srcs[j]) ==> exists m :: 0 <= m < j - 1 && srcs[1..][m].Raises? by {
          forall j | 1 <= j < |srcs| && IsJpg(srcs[j])
            ensures exists m :: 0 <= m < j - 1 && srcs[1..][m].Raises?
          {
            assert IsJpg(srcs[1..][j - 1]);
          }
        }
        assert forall m :: 0 <= m < |srcs| - 1 ==> srcs[1..][m] == srcs[m + 1];
        None
  }

  function Shift(o: Option<nat>, d: nat): Option<nat> {
    if o.Some? then Some(o.value + d) else None
  }

  /** An image read that returns a non-jpg source moves the search one place on. */
  lemma FirstJpgSkip(srcs: seq<Attempt<Option<string>>>, i: nat)
    requires i < |srcs| && srcs[i].Returns? && !IsJpg(srcs[i])
    ensures FirstJpg(srcs[i..]) == Shift(FirstJpg(srcs[i + 1..]), 1)
  {
    assert srcs[i..][1..] == srcs[i + 1..];
  }

  /** What the main-image rule makes of the image list. */
  function MainImg(srcs: seq<Attempt<Option<string>>>): string {
    match FirstJpg(srcs)
    case Some(i) => ReplaceAll(srcs[i].value.value, "SS100", "SS500")
    case None => "N/A"
  }

  /** A found image URL keeps its length, so it is never mistaken for "N/A". */
  lemma MainImgFound(srcs: seq<Attempt<Option<string>>>)
    requires FirstJpg(srcs).Some?
    ensures var src := srcs[FirstJpg(srcs).value].value.value;
      |MainImg(srcs)| == |src| >= 4 && MainImg(srcs) != "N/A"
  {
    var src := srcs[FirstJpg(srcs).value].value.value;
    ReplaceAllLength(src, "SS100", "SS500");
  }

  /** A source without the thumbnail marker is returned as it is. */
  lemma MainImgUnmarked(srcs: seq<Attempt<Option<string>>>)
    requires FirstJpg(srcs).Some? && !Contains(srcs[FirstJpg(srcs).value].value.value, "SS100")
    ensures MainImg(srcs) == srcs[FirstJpg(srcs).value].value.value
  {
    ReplaceAllAbsent(srcs[FirstJpg(srcs).value].value.value, "SS100", "SS500");
  }

  /**
   * `_main_img_url`: scan the images of the first matching list (an
   * absent list is an empty one); a read that raises ends the scan with
   * "N/A".
   */
  method MainImgUrl(srcs: seq<Attempt<Option<string>>>) returns (url: string)
    ensures url == MainImg(srcs)
  {
    var i := 0;
    while i < |srcs|
      invariant 0 <= i <= |srcs|
      invariant FirstJpg(srcs) == Shift(FirstJpg(srcs[i..]), i)
    {
      var src := srcs[i];
      if src.Raises? {
        assert FirstJpg(srcs[i..]).None?;
        return "N/A";
      }
      if IsJpg(src) {
        assert FirstJpg(srcs[i..]) == Some(0);
        return ReplaceAll(src.value.value, "SS100", "SS500");
      }
      FirstJpgSkip(srcs, i);
      assert Shift(FirstJpg(srcs[i..]), i) == Shift(FirstJpg(srcs[i + 1..]), i + 1);
      i := i + 1;
    }
    url := "N/A";
  }

  // ---------------------------------------------------------------------
  // _best_seller_rank
  // ---------------------------------------------------------------------

  /** The first `)` at or after `k` that `.*?` can reach without crossing a newline. */
  function CloseParen(s: string, k: nat): (j: Option<nat>)
    requires k <= |s|
    ensures j.Some? ==> k <= j.value < |s| && s[j.value] == ')'
    ensures j.None? && '\n' !in s[k..] ==> ')' !in s[k..]
    decreases |s| - k
  {
    if k == |s| then None
    else if s[k] == ')' then Some(k)
    else if s[k] == '\n' then None
    else
      var r := CloseParen(s, k + 1);
      assert s[k..] == [s[k]] + s[k + 1..];
      r
  }

  /** The length of a match of `\s*\(.*?\)` at the start of `s`, if there is one. */
  function ParenMatch(s: string): (n: Option<nat>)
    ensures n.Some? ==> 2 <= n.value <= |s|
  {
    var w := |s| - |TrimLeft(s)|;
    if w < |s| && s[w] == '(' then
      match CloseParen(s, w + 1)
      case Some(j) => Some(j + 1)
      case None => None
    else None
  }

  /** `re.sub(r"\s*\(.*?\)", "", s)`: every match, scanning from the left, is removed. */
  function StripParens(s: string): (r: string)
    ensures forall c :: c in r ==> c in s
    decreases |s|
  {
    if s == [] then []
    else match ParenMatch(s)
      case Some(n) => StripParens(s[n..])
      case None =>
        var t := StripParens(s[1..]);
        assert forall c :: c in [s[0]] + t ==> c in s;
        [s[0]] + t
  }

  /** No `(` is followed by a `)`. */
  predicate NoParenGroup(r: string) {
    forall i, j :: 0 <= i < j < |r| && r[i] == '(' ==> r[j] != ')'
  }

  /** On a one-line rank every parenthesised part is gone. */
  lemma {:induction false} StripParensLeavesNoGroup(s: string)
    requires '\n' !in s
    ensures NoParenGroup(StripParens(s))
    decreases |s|
  {
    if s != [] {
      match ParenMatch(s)
      case Some(n) =>
        assert forall c :: c in s[n..] ==> c in s;
        StripParensLeavesNoGroup(s[n..]);
      case None =>
        assert forall c :: c in s[1..] ==> c in s;
        StripParensLeavesNoGroup(s[1..]);
        if s[0] == '(' {
          assert |s| - |TrimLeft(s)| == 0;
          assert CloseParen(s, 1).None?;
          assert s[1..] == s[1..][0..];
          assert ')' !in s[1..];
          assert ')' !in StripParens(s[1..]);
        }
        NoParenGroupCons(s[0], StripParens(s[1..]));
    }
  }

  /** Putting a character in front keeps a string free of groups, unless it opens one. */
  lemma NoParenGroupCons(c: char, t: string)
    requires NoParenGroup(t) && (c == '(' ==> ')' !in t)
    ensures NoParenGroup([c] + t)
  {
    var r := [c] + t;
    forall i, j | 0 <= i < j < |r| && r[i] == '('
      ensures r[j] != ')'
    {
      assert r[j] == t[j - 1];
      if i == 0 {
        assert t[j - 1] in t;
      } else {
        assert r[i] == t[i - 1];
      }
    }
  }

  const NotAvailable: string := "Not Available"
  const BestSellersLabel: string := "Best Sellers Rank"

  /** One `th` of the product-details table: its text, and the span texts of its next sibling, if it has one. */
  datatype HeaderCell = HeaderCell(text: Option<string>, ranks: Option<seq<string>>)

  /** The rank text a found `td` yields, before the last clean-up. */
  function Ranks(spans: seq<string>): (rs: seq<string>)
    requires spans != []
    ensures |rs| == 2 && rs[0] == spans[0]
    ensures rs[1] == if |spans| >= 2 then spans[1] else NotAvailable
  {
    if |spans| >= 2 then spans[..2] else spans + [NotAvailable]
  }

  /** One rank with its parenthesised parts removed. */
  function CleanRank(r: string): string {
    Strip(StripParens(r))
  }

  /** `(await th.text_content() or "").strip() == "Best Sellers Rank"` */
  predicate IsLabel(th: HeaderCell) {
    Strip(th.text.GetOr("")) == BestSellersLabel
  }

  /** The position of the first element of `xs` that satisfies `P`. */
  function FirstIndex<T>(xs: seq<T>, P: T -> bool): (i: Option<nat>)
    ensures i.Some? ==> i.value < |xs| && P(xs[i.value])
    ensures i.Some? ==> forall j :: 0 <= j < i.value ==> !P(xs[j])
    ensures i.None? ==> forall j :: 0 <= j < |xs| ==> !P(xs[j])
    decreases |xs|
  {
    if xs == [] then None
    else if P(xs[0]) then Some(0)
    else
      var r := FirstIndex(xs[1..], P);
      assert forall j :: 1 <= j < |xs| ==> xs[j] == xs[1..][j - 1];
      if r.Some? then Some(r.value + 1) else None
  }

  /** An element that satisfies `P`, with none before it, is the one `FirstIndex` names. */
  lemma {:induction false} FirstIndexAt<T>(xs: seq<T>, P: T -> bool, i: nat)
    requires i < |xs| && P(xs[i])
    requires forall j :: 0 <= j < i ==> !P(xs[j])
    ensures FirstIndex(xs, P) == Some(i)
    decreases i
  {
    if i > 0 {
      assert !P(xs[0]);
      var tail := xs[1..];
      assert tail[i - 1] == xs[i];
      assert forall j :: 0 <= j < i - 1 ==> tail[j] == xs[j + 1];
      FirstIndexAt(tail, P, i - 1);
    }
  }

  /** The loop `for th in th_elements: ... if ...: break`, over any test. */
  method FindFirst<T>(xs: seq<T>, P: T -> bool) returns (found: Option<nat>)
    ensures found == FirstIndex(xs, P)
  {
    var i := 0;
    while i < |xs|
      invariant 0 <= i <= |xs|
      invariant forall j :: 0 <= j < i ==> !P(xs[j])
      decreases |xs| - i
    {
      if P(xs[i]) {
        FirstIndexAt(xs, P, i);
        return Some(i);
      }
      i := i + 1;
    }
    return None;
  }

  /** The index of the first `th` whose stripped text is the label. */
  function LabelIndex(ths: seq<HeaderCell>): Option<nat> {
    FirstIndex(ths, IsLabel)
  }

  /** What the best-seller rule yields once the search has stopped at `found`. */
  function RankAt(ths: seq<HeaderCell>, found: Option<nat>): string
    requires found.Some? ==> found.value < |ths|
  {
    match found
    case None => NotAvailable + ", " + NotAvailable
    case Some(i) =>
      match ths[i].ranks
      case None => NotAvailable + ", " + NotAvailable
      case Some(spans) =>
        if spans == [] then NotAvailable + ", " + NotAvailable
        else
          var rs := Ranks(spans);
          CleanRank(rs[0]) + ", " + CleanRank(rs[1])
  }

  /** What the best-seller rule yields for the `th` cells of the table (none when the table is absent). */
  function BestSellerRankOf(ths: seq<HeaderCell>): string {
    RankAt(ths, LabelIndex(ths))
  }

  /** A single rank is paired with "Not Available". */
  lemma SingleRankPadded(ths: seq<HeaderCell>, i: nat)
    requires i < |ths| && ths[i].ranks.Some? && |ths[i].ranks.value| == 1
    ensures RankAt(ths, Some(i)) == CleanRank(ths[i].ranks.value[0]) + ", " + NotAvailable
  {
    NotAvailableClean();
  }

  lemma NotAvailableClean()
    ensures CleanRank(NotAvailable) == NotAvailable
  {
    assert '(' !in NotAvailable;
    assert Trimmed(NotAvailable);
    CleanRankPlain(NotAvailable);
  }

  /** A trimmed rank without brackets is left as it is. */
  lemma CleanRankPlain(r: string)
    requires '(' !in r && Trimmed(r)
    ensures CleanRank(r) == r
  {
    StripParensNoParen(r);
    StripTrimmed(r);
  }

  /** A string without brackets passes the bracket rule unchanged. */
  lemma {:induction false} StripParensNoParen(s: string)
    requires '(' !in s
    ensures StripParens(s) == s
    decreases |s|
  {
    if s != [] {
      var w := |s| - |TrimLeft(s)|;
      assert w < |s| ==> s[w] in s;
      assert ParenMatch(s).None?;
      assert s == [s[0]] + s[1..];
      StripParensNoParen(s[1..]);
    }
  }

  /**
   * `_best_seller_rank`: look for the label among the `th` cells, stopping
   * at the first; both ranks stay "Not Available" unless a non-empty span
   * list is found.
   */
  method BestSellerRank(ths: seq<HeaderCell>) returns (rank: string)
    ensures rank == BestSellerRankOf(ths)
  {
    var found := FindFirst(ths, IsLabel);
    assert BestSellerRankOf(ths) == RankAt(ths, found);
    if found.None? {
      return NotAvailable + ", " + NotAvailable;
    }
    var cell := ths[found.value];
    if cell.ranks.None? || cell.ranks.value == [] {
      return NotAvailable + ", " + NotAvailable;
    }
    var rs := Ranks(cell.ranks.value);
    rank := CleanRank(rs[0]) + ", " + CleanRank(rs[1]);
  }

  // ---------------------------------------------------------------------
  // _store_link
  // ---------------------------------------------------------------------

  const AmazonHost: string := "http://amazon.in"

  /** `_store_link`: the byline link's `href` on the Amazon host, "N/A" without one. */
  function StoreLink(href: Option<string>): (link: string)
    ensures href.Some? && href.value != "" ==> StartsWith(link, AmazonHost) && link[|AmazonHost|..] == href.value
    ensures !(href.Some? && href.value != "") ==> link == "N/A"
  {
    match href
    case None => "N/A"
    case Some(h) => if h == "" then "N/A" else AmazonHost + h
  }

  /** Different hrefs give different store links. */
  lemma StoreLinkInjective(a: string, b: string)
    requires a != "" && b != "" && StoreLink(Some(a)) == StoreLink(Some(b))
    ensures a == b
  {
    PrefixCancel(AmazonHost, a, b);
  }
}
