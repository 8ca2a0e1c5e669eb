/**
 * One run of the popup build unit after vite's `build` has written the
 * SvelteKit site into `<outDir>/popup`: read `popup.html` and
 * `popup/index.html`, extract the two fragments, return early when either is
 * missing, otherwise write the spliced `popup.html`, rename `popup/_app` to
 * `_app` and remove `popup/`.
 */
module PopupUnit {
  import opened Strings
  import opened HtmlExtract
  import opened HtmlSplice
  import opened ViteConfig
  import opened OutputDirs
  import opened WxtHost

  const PopupHtml: Path := ["popup.html"]
  const PopupDir: Path := ["popup"]
  const IndexHtml: Path := ["popup", "index.html"]
  const PopupApp: Path := ["popup", "_app"]
  const AppDir: Path := ["_app"]

  /** `popup.html`, `popup/` and `_app` are three separate places. */
  lemma SeparatePlaces()
    ensures !Under(PopupHtml, PopupDir) && !Under(PopupHtml, AppDir) && !Under(AppDir, PopupDir)
    ensures !Under(PopupHtml, PopupApp) && !Under(AppDir, PopupApp)
    ensures forall p :: Under(p, PopupApp) ==> Under(p, PopupDir)
  {
    assert PopupHtml[..1][0] == "popup.html" && AppDir[..1][0] == "_app";
    assert |"popup.html"| != |"popup"|;
    assert "popup.html"[0] != "_app"[0];
    assert "_app"[0] != "popup"[0];
    forall p | Under(p, PopupApp)
      ensures Under(p, PopupDir)
    {
      assert p[..1] == p[..2][..1];
    }
  }

  /**
   * vite's `build(config)`, seen only through what it leaves in the output
   * directory; `None` when its promise rejects (a compile error, say).
   */
  type ViteBuild = (Config, FileTree) -> Option<FileTree>

  datatype Outcome =
    | BuildFailed   // `build` rejected: the unit throws before reading anything
    | Done          // spliced, moved and cleaned up
    | TagsMissing   // "Could not find tags": returned early, nothing touched
    | ReadFailed    // a `readFile` rejected: the unit throws before any write
    | RenameFailed  // the `rename` rejected: the unit throws after the write
  {
    /** The unit's promise resolved; an early return resolves too. */
    predicate Completed()
    {
      Done? || TagsMissing?
    }
  }

  /** JavaScript's `!v` for `string | undefined`: `undefined` and `""` are falsy. */
  predicate Falsy(v: Option<string>)
  {
    v.None? || v.value == ""
  }

  /** `svelteKitHead` and `svelteKitBody` when neither is falsy. */
  function Fragments(indexHtml: string): Option<(string, string)>
  {
    var head := HeadFragment(indexHtml);
    var body := BodyFragment(indexHtml);
    if Falsy(head) || Falsy(body) then None else Some((head.value, body.value))
  }

  /** The truthiness guard rejects exactly a missing match: a match is never empty. */
  lemma FragmentsFound(indexHtml: string)
    ensures Fragments(indexHtml).Some? <==>
      HeadFragment(indexHtml).Some? && BodyFragment(indexHtml).Some?
    ensures Fragments(indexHtml).Some? ==>
      Fragments(indexHtml).value == (HeadFragment(indexHtml).value, BodyFragment(indexHtml).value)
  {
    if HeadFragment(indexHtml).Some? {
      MatchedFragment(HeadPattern, indexHtml);
    }
    if BodyFragment(indexHtml).Some? {
      MatchedFragment(BodyPattern, indexHtml);
    }
  }

  /** The output directory once the spliced `popup.html` is written. */
  function Written(t: FileTree, head: string, body: string): (r: FileTree)
    requires PopupHtml in t
    ensures r.Keys == t.Keys
    ensures r[PopupHtml] == Splice(t[PopupHtml], head, body)
    ensures forall p :: p in t && p != PopupHtml ==> r[p] == t[p]
  {
    t[PopupHtml := Splice(t[PopupHtml], head, body)]
  }

  /** The outcome of the unit and the output directory it leaves. */
  function Unit(t: FileTree): (Outcome, FileTree)
  {
    if PopupHtml !in t || IndexHtml !in t then (ReadFailed, t)
    else
      match Fragments(t[IndexHtml])
      case None => (TagsMissing, t)
      case Some((head, body)) =>
        var written := Written(t, head, body);
        if !CanRename(written, PopupApp, AppDir) then (RenameFailed, written)
        else (Done, Without(Moved(written, PopupApp, AppDir), PopupDir))
  }

  /** The unit as the source runs it, one file-system call after another. */
  method RunUnit(out: OutputDir) returns (o: Outcome)
    modifies out
    ensures (o, out.files) == Unit(old(out.files))
  {
    var popupHtml := out.Read(PopupHtml);
    var indexHtml := out.Read(IndexHtml);
    if popupHtml.None? || indexHtml.None? {
      return ReadFailed;
    }
    var head := HeadFragment(indexHtml.value);
    var body := BodyFragment(indexHtml.value);
    if Falsy(head) || Falsy(body) {
      return TagsMissing;
    }
    var popupHtmlModified := Splice(popupHtml.value, head.value, body.value);
    out.Write(PopupHtml, popupHtmlModified);
    var renamed := out.Rename(PopupApp, AppDir);
    if !renamed {
      return RenameFailed;
    }
    out.Remove(PopupDir);
    o := Done;
  }

  /**
   * `await build(finalConfig)` followed by the unit: a rejected build leaves
   * the directory as it was and the unit does not run.
   */
  function AfterBuild(built: Option<FileTree>, t: FileTree): (Outcome, FileTree)
  {
    match built
    case None => (BuildFailed, t)
    case Some(b) => Unit(b)
  }

  /** The build, then the unit on what the build left. */
  method BuildAndSplice(out: OutputDir, finalConfig: Config, viteBuild: ViteBuild) returns (o: Outcome)
    modifies out
    ensures (o, out.files) == AfterBuild(viteBuild(finalConfig, old(out.files)), old(out.files))
  {
    var built := viteBuild(finalConfig, out.files);
    if built.None? {
      return BuildFailed;
    }
    out.files := built.value;
    o := RunUnit(out);
  }

  /**
   * The unit returns early exactly when both files can be read and one of the
   * two regular expressions matches nowhere in `index.html`; it then leaves
   * the output directory as it was: `popup.html` is not rewritten,
   * `popup/_app` is not moved and `popup/` is not removed.
   */
  lemma TagsMissingExactly(t: FileTree)
    ensures Unit(t).0 == TagsMissing <==>
      && PopupHtml in t && IndexHtml in t
      && ((forall i, j :: !MatchesAt(HeadPattern, t[IndexHtml], i, j))
          || (forall i, j :: !MatchesAt(BodyPattern, t[IndexHtml], i, j)))
    ensures Unit(t).0 == TagsMissing ==> Unit(t).1 == t
  {
    if PopupHtml in t && IndexHtml in t {
      var html := t[IndexHtml];
      FindIsLeftmostLongest(HeadPattern, html);
      FindIsLeftmostLongest(BodyPattern, html);
      FragmentsFound(html);
    }
  }

  /** Past the guard, the unit completes exactly when the rename can go ahead. */
  lemma DoneAfterGuard(t: FileTree)
    requires PopupHtml in t && IndexHtml in t && Fragments(t[IndexHtml]).Some?
    ensures Unit(t).0 == Done <==> Occupied(t, PopupApp) && !Occupied(t, AppDir)
  {
    var (head, body) := Fragments(t[IndexHtml]).value;
    var written := Written(t, head, body);
    SeparatePlaces();
    WriteOutside(t, PopupHtml, written[PopupHtml], PopupApp);
    WriteOutside(t, PopupHtml, written[PopupHtml], AppDir);
  }

  /**
   * The unit completes its work exactly when both files can be read, both
   * fragments are found, something is at `popup/_app` and nothing is at
   * `_app`.
   */
  lemma DoneExactly(t: FileTree)
    ensures Unit(t).0 == Done <==>
      && PopupHtml in t && IndexHtml in t
      && HeadFragment(t[IndexHtml]).Some? && BodyFragment(t[IndexHtml]).Some?
      && Occupied(t, PopupApp) && !Occupied(t, AppDir)
  {
    if PopupHtml in t && IndexHtml in t {
      FragmentsFound(t[IndexHtml]);
      if Fragments(t[IndexHtml]).Some? {
        DoneAfterGuard(t);
      }
    }
  }

  /**
   * After a completed unit `popup.html` holds the spliced shell, `_app` holds
   * what `popup/_app` held and nothing else, no path under `popup/` remains,
   * and every other file is as it was.
   */
  lemma DoneEffect(t: FileTree)
    requires Unit(t).0 == Done
    ensures var r := Unit(t).1;
      && r[PopupHtml] == Splice(t[PopupHtml], HeadFragment(t[IndexHtml]).value, BodyFragment(t[IndexHtml]).value)
      && (forall q :: q in t && Under(q, PopupApp) ==> AppDir + q[2..] in r && r[AppDir + q[2..]] == t[q])
      && (forall p :: p in r && Under(p, AppDir) ==> PopupApp + p[1..] in t && r[p] == t[PopupApp + p[1..]])
      && (forall p :: p in r ==> !Under(p, PopupDir))
      && (forall p :: p != PopupHtml && !Under(p, PopupDir) && !Under(p, AppDir) ==>
            (p in r <==> p in t) && (p in t ==> r[p] == t[p]))
  {
    var html := t[IndexHtml];
    FragmentsFound(html);
    var (head, body) := Fragments(html).value;
    var written := Written(t, head, body);
    var moved := Moved(written, PopupApp, AppDir);
    var r := Unit(t).1;
    assert r == Without(moved, PopupDir);
    MovedKeepsOthers(written, PopupApp, AppDir, PopupHtml);
    forall q | q in t && Under(q, PopupApp)
      ensures AppDir + q[2..] in r && r[AppDir + q[2..]] == t[q]
    {
      assert q != PopupHtml;
      MovedKeepsContent(written, PopupApp, AppDir, q);
    }
    forall p | p in r && Under(p, AppDir)
      ensures PopupApp + p[1..] in t && r[p] == t[PopupApp + p[1..]]
    {
      MovedAddsOnlyFromSource(written, PopupApp, AppDir, p);
    }
    forall p | p != PopupHtml && !Under(p, PopupDir) && !Under(p, AppDir)
      ensures (p in r <==> p in t) && (p in t ==> r[p] == t[p])
    {
      assert !Under(p, PopupApp);
      MovedKeepsOthers(written, PopupApp, AppDir, p);
    }
  }

  /**
   * The rename cannot replace the `_app` a completed unit leaves behind: as
   * long as that `_app` is still there, whatever vite's build wrote in
   * between, a later unit cannot complete. Once past the tag check it writes
   * the spliced `popup.html` and then fails at the rename.
   */
  lemma NoSecondDone(t: FileTree, rebuilt: FileTree)
    requires Unit(t).0 == Done
    requires forall p :: p in Unit(t).1 && Under(p, AppDir) ==> p in rebuilt
    ensures Unit(rebuilt).0 != Done
    ensures PopupHtml in rebuilt && IndexHtml in rebuilt && Fragments(rebuilt[IndexHtml]).Some? ==>
      var (head, body) := Fragments(rebuilt[IndexHtml]).value;
      Unit(rebuilt) == (RenameFailed, Written(rebuilt, head, body))
  {
    DoneExactly(t);
    DoneEffect(t);
    var q :| q in t && Under(q, PopupApp);
    var p := AppDir + q[2..];
    assert p[..1] == AppDir;
    assert p in rebuilt && Under(p, AppDir);
    DoneExactly(rebuilt);
  }

  /**
   * A SvelteKit page written on a single line, such as
   * `<html><head><link rel="icon" href="a.png"></head><body><p>x</p></body></html>`,
   * has no head fragment, so the unit returns early and `popup.html` keeps
   * its empty anchors.
   */
  lemma SingleLinePageAborts(t: FileTree)
    requires PopupHtml in t && IndexHtml in t
    requires '\n' !in t[IndexHtml]
    ensures Unit(t) == (TagsMissing, t)
  {
    SingleLineHasNoHead(t[IndexHtml]);
  }

  /** `resolve(wxt.config.entrypointsDir, "popup")` */
  function PopupEntrypointPath(entrypointsDir: string): string
  {
    Resolve(entrypointsDir, "popup")
  }

  /** The popup watchers' test on a changed path: `file.startsWith(entrypointPath)`. */
  predicate PopupWatchTriggers(entrypointPath: string, file: string)
  {
    StartsWith(file, entrypointPath)
  }

  /**
   * The watcher's test is a raw string prefix with no exception: every path
   * that begins with the entrypoint path triggers a rebuild, and so does a
   * sibling such as `entrypoints/popup.html`, although it does not lie under
   * `entrypoints/popup/`.
   */
  lemma RawPrefixTriggersSiblings(entrypointsDir: string, rest: string)
    ensures var base := PopupEntrypointPath(entrypointsDir);
      && PopupWatchTriggers(base, base + rest)
      && PopupWatchTriggers(base, base + ".html")
      && !StartsWith(base + ".html", base + "/")
  {
    var base := PopupEntrypointPath(entrypointsDir);
    var sibling := base + ".html";
    assert (base + rest)[..|base|] == base;
    assert sibling[..|base|] == base;
    assert sibling[..|base| + 1][|base|] == '.' != (base + "/")[|base|];
  }
}
