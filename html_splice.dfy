/**
 * The shell rewrite
 *
 *   popupHtml.replace("</head>", svelteKitHead).replace("<body></body>", svelteKitBody)
 *
 * Each `replace` acts on the first occurrence of its anchor only and is the
 * identity when the anchor is absent; nothing checks that an anchor occurs,
 * or that it occurs once.
 */
module HtmlSplice {
  import opened Strings

  const HeadAnchor: string := "</head>"
  const BodyAnchor: string := "<body></body>"

  /**
   * `popupHtml.replace("</head>", head).replace("<body></body>", body)`; a
   * shell with neither anchor comes back unchanged and nothing reports it.
   */
  function Splice(shell: string, head: string, body: string): (r: string)
    ensures (forall j :: !OccursAt(shell, HeadAnchor, j)) && (forall j :: !OccursAt(shell, BodyAnchor, j)) ==> r == shell
  {
    ReplaceFirst(ReplaceFirst(shell, HeadAnchor, head), BodyAnchor, body)
  }

  /** The shell after the first step, with a `$`-free head fragment. */
  function WithHead(shell: string, head: string, i: nat): string
    requires i + |HeadAnchor| <= |shell|
  {
    shell[..i] + head + shell[i + |HeadAnchor|..]
  }

  /**
   * With both anchors present and `$`-free fragments, the head fragment takes
   * the place of the first `</head>`, and in that text the body fragment then
   * takes the place of the first `<body></body>`; everything else, later
   * occurrences of either anchor included, stays as it was.
   */
  lemma SpliceBothAnchors(shell: string, head: string, body: string, i: nat, k: nat)
    requires '$' !in head && '$' !in body
    requires FirstOccurrence(shell, HeadAnchor, i)
    requires FirstOccurrence(WithHead(shell, head, i), BodyAnchor, k)
    ensures var mid := WithHead(shell, head, i);
      Splice(shell, head, body) == mid[..k] + body + mid[k + |BodyAnchor|..]
  {
    ReplaceFirstLiteral(shell, HeadAnchor, head, i);
    ReplaceFirstLiteral(WithHead(shell, head, i), BodyAnchor, body, k);
  }

  /** A shell without `</head>` only gets its body anchor replaced. */
  lemma SpliceWithoutHeadAnchor(shell: string, head: string, body: string)
    requires forall j :: !OccursAt(shell, HeadAnchor, j)
    ensures Splice(shell, head, body) == ReplaceFirst(shell, BodyAnchor, body)
  {
  }

  /**
   * When the text after the head step has no `<body></body>`, the splice is
   * just the head step; in particular a shell with neither anchor comes back
   * unchanged, and nothing reports it.
   */
  lemma SpliceWithoutBodyAnchor(shell: string, head: string, body: string)
    requires forall j :: !OccursAt(ReplaceFirst(shell, HeadAnchor, head), BodyAnchor, j)
    ensures Splice(shell, head, body) == ReplaceFirst(shell, HeadAnchor, head)
    ensures (forall j :: !OccursAt(shell, HeadAnchor, j)) ==> Splice(shell, head, body) == shell
  {
  }
}
