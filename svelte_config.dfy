/**
 * example/svelte.config.ts: the `kit.typescript.config` callback SvelteKit
 * calls on the generated tsconfig. It rewrites each `include` entry so that
 * the first `vite.config` in it becomes `*.config`, which also brings
 * `wxt.config.ts` and `svelte.config.ts` into the TypeScript project.
 */
module SvelteConfig {
  import opened Strings

  const ViteConfigName: string := "vite.config"
  const AnyConfigName: string := "*.config"

  /** A top-level tsconfig value: a list of strings, or anything else. */
  datatype TsValue = StringList(items: seq<string>) | OtherValue(text: string)

  /** `path.replace("vite.config", "*.config")` */
  function RewriteInclude(path: string): (r: string)
    ensures (forall j :: !OccursAt(path, ViteConfigName, j)) ==> r == path
  {
    ReplaceFirst(path, ViteConfigName, AnyConfigName)
  }

  /**
   * `include.flatMap((path) => path.replace(…))`: each callback returns a
   * string, which `flatMap` keeps as a single element, so the list keeps
   * its length and order.
   */
  function RewriteIncludeList(paths: seq<string>): (r: seq<string>)
    ensures |r| == |paths|
    ensures forall i :: 0 <= i < |paths| ==> r[i] == RewriteInclude(paths[i])
  {
    if paths == [] then [] else [RewriteInclude(paths[0])] + RewriteIncludeList(paths[1..])
  }

  /**
   * An entry without `vite.config` is kept as it is; in an entry with it,
   * only the first occurrence becomes `*.config`, and what comes before and
   * after it, later occurrences included, is kept.
   */
  lemma RewriteEntry(paths: seq<string>, i: nat)
    requires i < |paths|
    ensures (forall j :: !OccursAt(paths[i], ViteConfigName, j)) ==> RewriteIncludeList(paths)[i] == paths[i]
    ensures forall k :: FirstOccurrence(paths[i], ViteConfigName, k) ==>
      RewriteIncludeList(paths)[i] == paths[i][..k] + AnyConfigName + paths[i][k + |ViteConfigName|..]
  {
    forall k | FirstOccurrence(paths[i], ViteConfigName, k)
      ensures RewriteIncludeList(paths)[i] == paths[i][..k] + AnyConfigName + paths[i][k + |ViteConfigName|..]
    {
      assert '$' !in AnyConfigName;
      ReplaceFirstLiteral(paths[i], ViteConfigName, AnyConfigName, k);
    }
  }

  /** The tsconfig object SvelteKit passes to the callback, which changes it in place. */
  class TsConfig {
    var entries: map<string, TsValue>

    constructor (entries: map<string, TsValue>)
      ensures this.entries == entries
    {
      this.entries := entries;
    }

    /**
     * The callback: a missing `include`, or one that is not a list, has no
     * `flatMap` and the callback throws, changing nothing; otherwise
     * `include` is replaced by the rewritten list and no other key changes.
     */
    method ConfigureTypescript() returns (thrown: bool)
      modifies this
      ensures thrown <==> "include" !in old(entries) || !old(entries)["include"].StringList?
      ensures thrown ==> entries == old(entries)
      ensures !thrown ==>
        entries == old(entries)["include" := StringList(RewriteIncludeList(old(entries)["include"].items))]
    {
      if "include" !in entries || !entries["include"].StringList? {
        return true;
      }
      thrown := false;
      entries := entries["include" := StringList(RewriteIncludeList(entries["include"].items))];
    }
  }
}
