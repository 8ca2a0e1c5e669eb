/**
 * modules/sveltekit/sveltekit-builder.ts: the WXT module that builds the
 * SvelteKit site as an ESM content script. It passes vite's merged config
 * to `build` as it is, rebuilds when a changed path starts with
 * `entrypoints/content` and is not its `index.ts`, asks the dev server to reload the
 * content script, scopes the `web_accessible_resources` entry to the
 * content script's `matches`, and adds two public paths.
 */
module ContentBuilder {
  import opened Strings
  import opened ViteConfig
  import opened WxtHost

  /**
   * vite's `build(config)` as this builder sees it: whether its promise
   * resolves. Its output goes to WXT's directory and is not read here.
   */
  type EsmBuild = Config -> bool

  /** `js` of the reload request. */
  const ReloadedScripts: seq<string> := ["/content-scripts/content.js"]

  /** `resources` of the manifest entry. */
  const EsmResources: seq<string> := ["/content-scripts/esm/*"]

  /** The two paths pushed onto the public paths. */
  const EsmPublicPaths: seq<string> := ["content-scripts/esm/content.js", "content-scripts/esm/content.css"]

  /** `resolve(wxt.config.entrypointsDir, "content")` */
  function EsmBase(entrypointsDir: string): string
  {
    Resolve(entrypointsDir, "content")
  }

  /** The watcher's test: a raw prefix match on `esmBase`, minus the one ignored file. */
  predicate ContentWatchTriggers(esmBase: string, file: string)
  {
    StartsWith(file, esmBase) && file != Resolve(esmBase, "index.ts")
  }

  /**
   * The ignored `index.ts` has the prefix and is still never a trigger;
   * every other file below `esmBase/`, and any sibling path that merely
   * starts with `esmBase`, is.
   */
  lemma WatchIgnoresOnlyIndex(esmBase: string, rest: string)
    ensures StartsWith(Resolve(esmBase, "index.ts"), esmBase)
    ensures !ContentWatchTriggers(esmBase, Resolve(esmBase, "index.ts"))
    ensures ContentWatchTriggers(esmBase, esmBase + rest) <==> rest != "/index.ts"
  {
    var index := Resolve(esmBase, "index.ts");
    assert index == esmBase + "/index.ts";
    assert index[..|esmBase|] == esmBase;
    assert (esmBase + rest)[..|esmBase|] == esmBase;
    if esmBase + rest == index {
      assert rest == (esmBase + rest)[|esmBase|..] == index[|esmBase|..] == "/index.ts";
    }
  }

  class ContentModule {
    const entrypointsDir: string
    var baseViteConfig: Option<Config>
    var contentScriptEntrypoint: Option<Entrypoint>
    /** Whether the `hookOnce("build:done")` handler has run. */
    var watchHookRan: bool
    /** `esmBase`, once the dev watcher is registered. */
    var watchedBase: Option<string>
    /** The configs passed to vite's `build`, in order. */
    var builds: seq<Config>
    /** The requests sent to the dev server's reload channel, in order. */
    var reloads: seq<Reload>

    constructor (entrypointsDir: string)
      ensures this.entrypointsDir == entrypointsDir
      ensures baseViteConfig.None? && contentScriptEntrypoint.None?
      ensures !watchHookRan && watchedBase.None?
      ensures builds == [] && reloads == []
    {
      this.entrypointsDir := entrypointsDir;
      baseViteConfig := None;
      contentScriptEntrypoint := None;
      watchHookRan := false;
      watchedBase := None;
      builds := [];
      reloads := [];
    }

    /**
     * `vite:build:extendConfig`: `entrypoint.name` throws on an empty group;
     * otherwise the config is kept when that entrypoint is `popup`.
     */
    method OnExtendConfig(entrypoints: seq<Entrypoint>, config: Config) returns (thrown: bool)
      modifies this`baseViteConfig
      ensures thrown <==> entrypoints == []
      ensures baseViteConfig ==
        if !thrown && entrypoints[0].name == "popup" then Some(config) else old(baseViteConfig)
    {
      if entrypoints == [] {
        return true;
      }
      thrown := false;
      if entrypoints[0].name == "popup" {
        baseViteConfig := Some(config);
      }
    }

    /**
     * `buildEsmContentScript`, the `build:done` handler: the merge of the
     * captured config with the three plugins goes to `build` unchanged;
     * nothing is stripped. `ok` is false when `build` rejects, which makes
     * the handler reject too.
     */
    method BuildEsmContentScript(merge: Merge, build: EsmBuild) returns (ok: bool)
      modifies this`builds
      ensures builds == old(builds) + [merge(baseViteConfig, ContentPrebuildConfig)]
      ensures ok == build(merge(baseViteConfig, ContentPrebuildConfig))
    {
      var finalConfig := ContentBuildConfig(merge, baseViteConfig);
      builds := builds + [finalConfig];
      ok := build(finalConfig);
    }

    /** `entrypoints:resolved`: the first entrypoint named `content`, if any. */
    method OnEntrypointsResolved(entrypoints: seq<Entrypoint>)
      modifies this`contentScriptEntrypoint
      ensures contentScriptEntrypoint == FindNamed(entrypoints, "content")
    {
      contentScriptEntrypoint := FindNamed(entrypoints, "content");
    }

    /** `hookOnce("build:done")`: registers the watcher, if there is a dev server, the first time only. */
    method OnFirstBuildDone(devServer: bool)
      modifies this`watchHookRan, this`watchedBase
      ensures watchHookRan
      ensures watchedBase ==
        if !old(watchHookRan) && devServer then Some(EsmBase(entrypointsDir)) else old(watchedBase)
    {
      if !watchHookRan {
        watchHookRan := true;
        if devServer {
          watchedBase := Some(EsmBase(entrypointsDir));
        }
      }
    }

    /**
     * The watcher callback: a triggering path rebuilds, then asks for the
     * content script to be reloaded with the entrypoint's `matches`. A
     * rejected build throws before the reload; so does reading the options
     * of a `content` entrypoint that was never resolved.
     */
    method OnWatchEvent(file: string, merge: Merge, build: EsmBuild) returns (triggered: bool, thrown: bool)
      modifies this`builds, this`reloads
      ensures triggered <==> watchedBase.Some? && ContentWatchTriggers(watchedBase.value, file)
      ensures thrown <==>
        triggered && (!build(ContentBuildConfig(merge, baseViteConfig)) || contentScriptEntrypoint.None?)
      ensures builds == old(builds) + (if triggered then [ContentBuildConfig(merge, baseViteConfig)] else [])
      ensures reloads == old(reloads) +
        (if triggered && !thrown then [ReloadContentScript(contentScriptEntrypoint.value.matches, ReloadedScripts)] else [])
    {
      if watchedBase.None? || !ContentWatchTriggers(watchedBase.value, file) {
        return false, false;
      }
      triggered := true;
      var ok := BuildEsmContentScript(merge, build);
      if !ok || contentScriptEntrypoint.None? {
        return triggered, true;
      }
      thrown := false;
      reloads := reloads + [ReloadContentScript(contentScriptEntrypoint.value.matches, ReloadedScripts)];
    }

    /**
     * `build:manifestGenerated`: `??= []` runs first, so a missing list
     * becomes empty even when reading the entrypoint's options then throws;
     * otherwise one entry scoped to the content script's `matches` is added.
     */
    method OnManifestGenerated(manifest: Manifest) returns (thrown: bool)
      modifies manifest
      ensures thrown <==> contentScriptEntrypoint.None?
      ensures manifest.webAccessibleResources ==
        if thrown then Some(old(manifest.webAccessibleResources).GetOr([]))
        else Some(Appended(old(manifest.webAccessibleResources), Scoped(contentScriptEntrypoint.value.matches, EsmResources)))
    {
      var list := if manifest.webAccessibleResources.None? then [] else manifest.webAccessibleResources.value;
      manifest.webAccessibleResources := Some(list);
      if contentScriptEntrypoint.None? {
        return true;
      }
      thrown := false;
      manifest.webAccessibleResources := Some(list + [Scoped(contentScriptEntrypoint.value.matches, EsmResources)]);
    }

    /** `prepare:publicPaths`: the ESM script and its stylesheet, in that order, after the existing paths. */
    method OnPreparePublicPaths(publicPaths: PublicPaths)
      modifies publicPaths
      ensures publicPaths.paths == old(publicPaths.paths) + EsmPublicPaths
    {
      publicPaths.paths := publicPaths.paths + EsmPublicPaths;
    }
  }
}
