/**
 * modules/sveltekit-builder.ts: the WXT module that builds the SvelteKit
 * popup with vite, splices it into WXT's `popup.html`, rebuilds it during
 * development when a changed path starts with `entrypoints/popup`, and adds
 * an unscoped `web_accessible_resources` entry to the manifest.
 *
 * The closure variables of the module are the fields of `PopupModule`; each
 * hook is a method. Calls into vite and into the dev server are recorded in
 * `builds` and `reloads`.
 */
module PopupBuilder {
  import opened Strings
  import opened ViteConfig
  import opened OutputDirs
  import opened PopupUnit
  import opened WxtHost

  class PopupModule {
    const entrypointsDir: string
    /** `wxt.config.outDir` */
    const out: OutputDir
    var baseViteConfig: Option<Config>
    var popupEntrypoint: Option<Entrypoint>
    /** Whether the `hookOnce("build:done")` handler has run. */
    var watchHookRan: bool
    /** The path the dev watcher reacts to, once it is registered. */
    var watchedPath: Option<string>
    /** The configs passed to vite's `build`, in order. */
    var builds: seq<Config>
    /** The requests sent to the dev server's reload channel, in order. */
    var reloads: seq<Reload>

    constructor (entrypointsDir: string, out: OutputDir)
      ensures this.entrypointsDir == entrypointsDir && this.out == out
      ensures baseViteConfig.None? && popupEntrypoint.None?
      ensures !watchHookRan && watchedPath.None?
      ensures builds == [] && reloads == []
    {
      this.entrypointsDir := entrypointsDir;
      this.out := out;
      baseViteConfig := None;
      popupEntrypoint := None;
      watchHookRan := false;
      watchedPath := None;
      builds := [];
      reloads := [];
    }

    /**
     * `vite:build:extendConfig`: the config is captured only when the first
     * entrypoint of the group is `popup`; an empty group makes the
     * destructured `entrypoint` undefined and the hook throw.
     */
    method OnExtendConfig(entrypoints: seq<Entrypoint>, config: Config) returns (thrown: bool)
      modifies this`baseViteConfig
      ensures thrown <==> entrypoints == []
      ensures baseViteConfig ==
        if !thrown && entrypoints[0].name == "popup" then Some(config) else old(baseViteConfig)
    {
      if entrypoints == [] {
        return true;
      }
      thrown := false;
      if entrypoints[0].name == "popup" {
        baseViteConfig := Some(config);
      }
    }

    /**
     * `buildPopup`: build with the merged config minus `build` and
     * `publicDir`, then run the splice unit. `prebuild` is the default export
     * of `vite.config`.
     */
    method BuildPopup(prebuild: Config, merge: Merge, viteBuild: ViteBuild) returns (o: Outcome)
      modifies this`builds, out
      ensures builds == old(builds) + [PopupBuildConfig(merge, baseViteConfig, prebuild)]
      ensures (o, out.files) == AfterBuild(viteBuild(PopupBuildConfig(merge, baseViteConfig, prebuild), old(out.files)), old(out.files))
    {
      var finalConfig := PopupBuildConfig(merge, baseViteConfig, prebuild);
      builds := builds + [finalConfig];
      o := BuildAndSplice(out, finalConfig, viteBuild);
    }

    /** `entrypoints:resolved`: the first entrypoint named `popup`, if any. */
    method OnEntrypointsResolved(entrypoints: seq<Entrypoint>)
      modifies this`popupEntrypoint
      ensures popupEntrypoint == FindNamed(entrypoints, "popup")
    {
      popupEntrypoint := FindNamed(entrypoints, "popup");
    }

    /** `hookOnce("build:done")`: registers the watcher, if there is a dev server, the first time only. */
    method OnFirstBuildDone(devServer: bool)
      modifies this`watchHookRan, this`watchedPath
      ensures watchHookRan
      ensures watchedPath ==
        if !old(watchHookRan) && devServer then Some(PopupEntrypointPath(entrypointsDir)) else old(watchedPath)
    {
      if !watchHookRan {
        watchHookRan := true;
        if devServer {
          watchedPath := Some(PopupEntrypointPath(entrypointsDir));
        }
      }
    }

    /**
     * The watcher callback: a path with the popup entrypoint path as a raw
     * prefix rebuilds the popup, and `reloadPage("popup.html")` follows
     * whenever `buildPopup` resolved, early return included; when it threw,
     * no reload is sent. `o` is `None` when the event is ignored.
     */
    method OnWatchEvent(file: string, prebuild: Config, merge: Merge, viteBuild: ViteBuild)
      returns (o: Option<Outcome>)
      modifies this`builds, this`reloads, out
      ensures o.Some? <==> watchedPath.Some? && PopupWatchTriggers(watchedPath.value, file)
      ensures o.None? ==> builds == old(builds) && reloads == old(reloads) && out.files == old(out.files)
      ensures o.Some? ==>
        var finalConfig := PopupBuildConfig(merge, baseViteConfig, prebuild);
        && builds == old(builds) + [finalConfig]
        && (o.value, out.files) == AfterBuild(viteBuild(finalConfig, old(out.files)), old(out.files))
        && reloads == old(reloads) + (if o.value.Completed() then [ReloadPage("popup.html")] else [])
    {
      if watchedPath.None? || !PopupWatchTriggers(watchedPath.value, file) {
        return None;
      }
      var outcome := BuildPopup(prebuild, merge, viteBuild);
      if outcome.Completed() {
        reloads := reloads + [ReloadPage("popup.html")];
      }
      o := Some(outcome);
    }

    /** `build:manifestGenerated`: `??= []`, then one unscoped `{}` entry. */
    method OnManifestGenerated(manifest: Manifest)
      modifies manifest
      ensures manifest.webAccessibleResources == Some(Appended(old(manifest.webAccessibleResources), Unscoped))
    {
      var list := if manifest.webAccessibleResources.None? then [] else manifest.webAccessibleResources.value;
      manifest.webAccessibleResources := Some(list + [Unscoped]);
    }

    /** `prepare:publicPaths`: the handler is empty and leaves the list alone. */
    method OnPreparePublicPaths(publicPaths: PublicPaths)
      ensures publicPaths.paths == old(publicPaths.paths)
    {
    }
  }
}
