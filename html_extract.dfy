/**
 * The two fragments taken out of the SvelteKit `index.html`:
 *
 *   HEAD_REGEX = /\n\t\t<link .+>.+<\/head>/s
 *   BODY_REGEX = /<body.*>.+<\/body>/s
 *
 * Both have the shape  open, at least `minGap` characters, `>`, at least one
 * character, close  where, under the `s` flag, `.` matches every character.
 * `MatchesAt` is the language of such a pattern; `Find` computes what
 * `String.prototype.match` returns, taking the greedy quantifiers' choices
 * explicitly, and `FindIsLeftmostLongest` proves that this is the leftmost
 * match and, among the matches starting there, the longest.
 */
module HtmlExtract {
  import opened Strings

  datatype Pattern = Pattern(open: string, minGap: nat, close: string)

  const HeadOpen: string := "\n\t\t<link "
  const HeadClose: string := "</head>"
  const BodyOpen: string := "<body"
  const BodyClose: string := "</body>"

  /** `\n\t\t<link .+>.+<\/head>`: `.+` needs at least one character before `>`. */
  const HeadPattern: Pattern := Pattern(HeadOpen, 1, HeadClose)
  /** `<body.*>.+<\/body>`: `.*` may be empty. */
  const BodyPattern: Pattern := Pattern(BodyOpen, 0, BodyClose)

  /** `s[i..j]` is a word of the pattern's language. */
  ghost predicate MatchesAt(pat: Pattern, s: string, i: int, j: int)
  {
    && OccursAt(s, pat.open, i)
    && j <= |s|
    && OccursAt(s, pat.close, j - |pat.close|)
    && exists g :: i + |pat.open| + pat.minGap <= g && g + 2 <= j - |pat.close| && s[g] == '>'
  }

  /**
   * What a JavaScript regular expression returns: the match that starts
   * leftmost, and here, where both quantifiers are greedy, the longest one
   * from that start.
   */
  ghost predicate IsRegexMatch(pat: Pattern, s: string, i: int, j: int)
  {
    && MatchesAt(pat, s, i, j)
    && (forall i', j' :: i' < i ==> !MatchesAt(pat, s, i', j'))
    && (forall j' :: j < j' ==> !MatchesAt(pat, s, i, j'))
  }

  /**
   * The bounds of the match of `pat` in `s`. The start is the first
   * occurrence of `open`; the first quantifier takes the last `>` that still
   * leaves one character before some `close`, and the second quantifier then
   * runs to the last `close` of the text.
   */
  function Find(pat: Pattern, s: string): (r: Option<(nat, nat)>)
    ensures r.Some? ==> r.value.0 + |pat.open| + pat.minGap + 2 + |pat.close| <= r.value.1 <= |s|
  {
    match IndexOf(s, pat.open)
    case None => None
    case Some(i) =>
      match LastIndexOf(s, pat.close)
      case None => None
      case Some(h) =>
        if h < 1 then None
        else
          match LastIndexBelow(s, ">", h - 1)
          case None => None
          case Some(g) =>
            if i + |pat.open| + pat.minGap <= g then Some((i, h + |pat.close|)) else None
  }

  lemma CharOccursAt(s: string, g: int)
    requires 0 <= g < |s|
    ensures OccursAt(s, ">", g) <==> s[g] == '>'
  {
    assert s[g..g + 1] == [s[g]];
  }

  /**
   * `Find` is the regular expression's match: when it finds bounds they are
   * the leftmost-longest match, and every `close` of the text starts no later
   * than the match's final one; when it finds none, no substring matches.
   */
  lemma FindIsLeftmostLongest(pat: Pattern, s: string)
    ensures Find(pat, s).Some? ==>
      && IsRegexMatch(pat, s, Find(pat, s).value.0, Find(pat, s).value.1)
      && forall h :: OccursAt(s, pat.close, h) ==> h <= Find(pat, s).value.1 - |pat.close|
    ensures Find(pat, s).None? ==> forall i, j :: !MatchesAt(pat, s, i, j)
  {
    match Find(pat, s)
    case Some((i, j)) =>
      var h := LastIndexOf(s, pat.close).value;
      var g := LastIndexBelow(s, ">", h - 1).value;
      CharOccursAt(s, g);
      assert MatchesAt(pat, s, i, j);
    case None =>
      forall i, j ensures MatchesAt(pat, s, i, j) ==> Find(pat, s).Some? {
        if MatchesAt(pat, s, i, j) {
          MatchIsFound(pat, s, i, j);
        }
      }
  }

  /** Any substring in the language makes `Find` succeed. */
  lemma MatchIsFound(pat: Pattern, s: string, i: int, j: int)
    requires MatchesAt(pat, s, i, j)
    ensures Find(pat, s).Some?
  {
    var g' :| i + |pat.open| + pat.minGap <= g' && g' + 2 <= j - |pat.close| && s[g'] == '>';
    CharOccursAt(s, g');
    assert IndexOf(s, pat.open).Some? && IndexOf(s, pat.open).value <= i;
    assert LastIndexOf(s, pat.close).Some?;
    var h := LastIndexOf(s, pat.close).value;
    assert j - |pat.close| <= h;
    assert LastIndexBelow(s, ">", h - 1).Some? && LastIndexBelow(s, ">", h - 1).value >= g';
  }

  /** `s.match(regex)?.[0]`: the matched text, or `undefined`. */
  function Match(pat: Pattern, s: string): (r: Option<string>)
    ensures r.Some? ==> |pat.open| + pat.minGap + 2 + |pat.close| <= |r.value|
  {
    match Find(pat, s)
    case None => None
    case Some((i, j)) => Some(s[i..j])
  }

  /**
   * A fragment found by `Match` is a substring of the document that starts
   * with `open`, ends with `close`, is never empty (so the source's
   * truthiness test only rejects a missing match), and ends at the last
   * `close` of the document.
   */
  lemma MatchedFragment(pat: Pattern, s: string)
    requires Match(pat, s).Some?
    ensures var f := Match(pat, s).value;
      && |pat.open| + pat.minGap + 2 + |pat.close| <= |f|
      && f[..|pat.open|] == pat.open
      && f[|f| - |pat.close|..] == pat.close
      && exists i :: OccursAt(s, f, i)
                  && forall h :: OccursAt(s, pat.close, h) ==> h <= i + |f| - |pat.close|
  {
    FindIsLeftmostLongest(pat, s);
    var (i, j) := Find(pat, s).value;
    var f := s[i..j];
    assert f[..|pat.open|] == s[i..i + |pat.open|];
    assert f[|f| - |pat.close|..] == s[j - |pat.close|..j];
    assert s[i..i + |f|] == f;
    assert OccursAt(s, f, i);
  }

  /** `indexHtml.match(HEAD_REGEX)?.[0]` */
  function HeadFragment(indexHtml: string): Option<string>
  {
    Match(HeadPattern, indexHtml)
  }

  /** `indexHtml.match(BODY_REGEX)?.[0]` */
  function BodyFragment(indexHtml: string): Option<string>
  {
    Match(BodyPattern, indexHtml)
  }

  /**
   * The head pattern starts with a line break and two tabs, so a document
   * written on one line never yields a head fragment, however well formed.
   */
  lemma SingleLineHasNoHead(indexHtml: string)
    requires '\n' !in indexHtml
    ensures HeadFragment(indexHtml) == None
  {
    forall i | 0 <= i && i + |HeadOpen| <= |indexHtml|
      ensures !OccursAt(indexHtml, HeadOpen, i)
    {
      assert indexHtml[i..i + |HeadOpen|][0] == indexHtml[i] != '\n';
    }
  }
}
