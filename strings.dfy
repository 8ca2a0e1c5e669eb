/**
 * The string operations the builders rely on, as JavaScript defines them:
 * `indexOf`, `lastIndexOf`, `startsWith` and `String.prototype.replace`
 * called with a string pattern, which replaces the first occurrence only and
 * expands the `$` patterns of its replacement text.
 */
module Strings {

  datatype Option<T> = None | Some(value: T)
  {
    function GetOr(default: T): T
    {
      match this
      case Some(v) => v
      case None => default
    }
  }

  /** `p` occurs in `s` starting at index `i`. */
  predicate OccursAt(s: string, p: string, i: int)
  {
    0 <= i && i + |p| <= |s| && s[i..i + |p|] == p
  }

  /** `i` is the first index at which `p` occurs in `s`. */
  predicate FirstOccurrence(s: string, p: string, i: int)
  {
    OccursAt(s, p, i) && forall j :: 0 <= j < i ==> !OccursAt(s, p, j)
  }

  /** `i` is the last index at which `p` occurs in `s`. */
  ghost predicate LastOccurrence(s: string, p: string, i: int)
  {
    OccursAt(s, p, i) && forall j :: i < j ==> !OccursAt(s, p, j)
  }

  /** JavaScript's `s.startsWith(p)`. */
  predicate StartsWith(s: string, p: string)
    ensures StartsWith(s, p) <==> OccursAt(s, p, 0)
  {
    |p| <= |s| && s[..|p|] == p
  }

  /** The first occurrence of `p` in `s` at or after index `k`. */
  function IndexFrom(s: string, p: string, k: nat): (r: Option<nat>)
    decreases |s| - k
    ensures r.Some? ==> k <= r.value && OccursAt(s, p, r.value)
    ensures forall j :: k <= j && (r.None? || j < r.value) ==> !OccursAt(s, p, j)
  {
    if |s| < k + |p| then None
    else if s[k..k + |p|] == p then Some(k)
    else IndexFrom(s, p, k + 1)
  }

  /** JavaScript's `s.indexOf(p)`, with `None` for -1. */
  function IndexOf(s: string, p: string): (r: Option<nat>)
    ensures r.Some? ==> FirstOccurrence(s, p, r.value)
    ensures r.None? ==> forall j :: !OccursAt(s, p, j)
  {
    IndexFrom(s, p, 0)
  }

  /** The last occurrence of `p` in `s` that starts strictly before index `k`. */
  function LastIndexBelow(s: string, p: string, k: nat): (r: Option<nat>)
    ensures r.Some? ==> r.value < k && OccursAt(s, p, r.value)
    ensures forall j :: j < k && (r.None? || r.value < j) ==> !OccursAt(s, p, j)
  {
    if k == 0 then None
    else if OccursAt(s, p, k - 1) then Some(k - 1)
    else LastIndexBelow(s, p, k - 1)
  }

  /** JavaScript's `s.lastIndexOf(p)`, with `None` for -1. */
  function LastIndexOf(s: string, p: string): (r: Option<nat>)
    ensures r.Some? ==> LastOccurrence(s, p, r.value)
    ensures r.None? ==> forall j :: !OccursAt(s, p, j)
  {
    LastIndexBelow(s, p, |s| + 1)
  }

  /**
   * The replacement text that `replace` inserts for a match when the pattern
   * is a string (so there are no capture groups): `$$` gives `$`, `$&` the
   * matched text, `` $` `` the text before the match and `$'` the text after
   * it; any other `$` stands for itself.
   */
  function Substitute(template: string, matched: string, before: string, after: string): string
    decreases |template|
  {
    if |template| == 0 then ""
    else if template[0] == '$' && 2 <= |template| then
      match template[1]
      case '$' => "$" + Substitute(template[2..], matched, before, after)
      case '&' => matched + Substitute(template[2..], matched, before, after)
      case '`' => before + Substitute(template[2..], matched, before, after)
      case '\'' => after + Substitute(template[2..], matched, before, after)
      case _ => "$" + Substitute(template[1..], matched, before, after)
    else [template[0]] + Substitute(template[1..], matched, before, after)
  }

  /** A replacement text without `$` is inserted literally. */
  lemma {:induction false} SubstituteLiteral(template: string, matched: string, before: string, after: string)
    requires '$' !in template
    ensures Substitute(template, matched, before, after) == template
  {
    if |template| > 0 {
      assert template == [template[0]] + template[1..];
      SubstituteLiteral(template[1..], matched, before, after);
    }
  }

  /** There is only one first occurrence. */
  lemma FirstOccurrenceUnique(s: string, p: string, i: int)
    requires FirstOccurrence(s, p, i)
    ensures forall k :: FirstOccurrence(s, p, k) ==> k == i
  {
  }

  /**
   * The text `replace` produces for a match of `p` at `i`: what precedes the
   * match, the expanded replacement, then what follows the match.
   */
  function ReplacedAt(s: string, p: string, rep: string, i: nat): string
    requires i + |p| <= |s|
  {
    s[..i] + Substitute(rep, p, s[..i], s[i + |p|..]) + s[i + |p|..]
  }

  /**
   * JavaScript's `s.replace(p, rep)` for a string pattern `p`: the identity
   * when `p` does not occur, otherwise only the first occurrence is replaced.
   */
  function ReplaceFirst(s: string, p: string, rep: string): (r: string)
    ensures (forall j :: !OccursAt(s, p, j)) ==> r == s
    ensures forall i :: FirstOccurrence(s, p, i) ==> r == ReplacedAt(s, p, rep, i)
  {
    match IndexOf(s, p)
    case None =>
      assert forall i :: !FirstOccurrence(s, p, i);
      s
    case Some(i) =>
      FirstOccurrenceUnique(s, p, i);
      ReplacedAt(s, p, rep, i)
  }

  /**
   * With a `$`-free replacement, `replace` puts `rep` in place of the first
   * occurrence of `p` and leaves the text before and after it, including any
   * later occurrence of `p`, as it was.
   */
  lemma ReplaceFirstLiteral(s: string, p: string, rep: string, i: nat)
    requires FirstOccurrence(s, p, i)
    requires '$' !in rep
    ensures ReplaceFirst(s, p, rep) == s[..i] + rep + s[i + |p|..]
  {
    SubstituteLiteral(rep, p, s[..i], s[i + |p|..]);
  }

  /** `$&` in the replacement re-inserts the matched text. */
  lemma ReplaceExpandsMatched()
    ensures ReplaceFirst("<p></head>", "</head>", "<i>$&") == "<p><i></head>"
  {
    var s, m, rep := "<p></head>", "</head>", "<i>$&";
    HeadAnchorFirstAt3();
    calc {
      ReplaceFirst(s, m, rep);
      ReplacedAt(s, m, rep, 3);
      s[..3] + Substitute(rep, m, s[..3], s[10..]) + s[10..];
      { assert s[..3] == "<p>" && s[10..] == ""; }
      "<p>" + Substitute(rep, m, "<p>", "") + "";
      { SubstituteExpandsMatched(m); }
      "<p>" + ("<i>" + m) + "";
    }
  }

  /** The anchor of the example above first occurs at index 3. */
  lemma HeadAnchorFirstAt3()
    ensures FirstOccurrence("<p></head>", "</head>", 3)
  {
    var s, m := "<p></head>", "</head>";
    forall j | 0 <= j < 3
      ensures !OccursAt(s, m, j)
    {
      assert s[j..j + |m|][1] == s[j + 1] != '/' == m[1];
    }
    assert s[3..10] == m;
  }

  /** The expansion used above: three literal characters, then the matched text. */
  lemma SubstituteExpandsMatched(m: string)
    ensures Substitute("<i>$&", m, "<p>", "") == "<i>" + m
  {
    var rep := "<i>$&";
    assert rep[1..] == "i>$&" && rep[1..][1..] == ">$&" && rep[1..][1..][1..] == "$&";
    assert "$&"[2..] == "";
    calc {
      Substitute(rep, m, "<p>", "");
      "<" + Substitute("i>$&", m, "<p>", "");
      "<i" + Substitute(">$&", m, "<p>", "");
      "<i>" + Substitute("$&", m, "<p>", "");
      "<i>" + m;
    }
  }
}
