/**
 * packages/module-sveltekit/src/sveltekit-builder.ts: the published form of
 * the popup builder. The build and splice run inline in the `build:done`
 * handler, and the watcher callback carries a second, identical copy of
 * them; both copies are one method here, `OnBuildDone`. This variant has no
 * manifest or public-path hooks.
 */
module PackagedBuilder {
  import opened Strings
  import opened ViteConfig
  import opened OutputDirs
  import opened PopupUnit
  import opened WxtHost

  class PackagedModule {
    const entrypointsDir: string
    /** `wxt.config.outDir` */
    const out: OutputDir
    var baseViteConfig: Option<Config>
    /** Whether the `hookOnce("build:done")` handler has run. */
    var watchHookRan: bool
    /** The path the dev watcher reacts to, once it is registered. */
    var watchedPath: Option<string>
    /** The configs passed to vite's `build`, in order. */
    var builds: seq<Config>
    /** The requests sent to the dev server's reload channel, in order. */
    var reloads: seq<Reload>

    constructor (entrypointsDir: string, out: OutputDir)
      ensures this.entrypointsDir == entrypointsDir && this.out == out
      ensures baseViteConfig.None? && !watchHookRan && watchedPath.None?
      ensures builds == [] && reloads == []
    {
      this.entrypointsDir := entrypointsDir;
      this.out := out;
      baseViteConfig := None;
      watchHookRan := false;
      watchedPath := None;
      builds := [];
      reloads := [];
    }

    /**
     * `vite:build:extendConfig`: `entrypoint!.name` throws on an empty group;
     * otherwise the config is kept when that entrypoint is `popup`.
     */
    method OnExtendConfig(entrypoints: seq<Entrypoint>, config: Config) returns (thrown: bool)
      modifies this`baseViteConfig
      ensures thrown <==> entrypoints == []
      ensures baseViteConfig ==
        if !thrown && entrypoints[0].name == "popup" then Some(config) else old(baseViteConfig)
    {
      if entrypoints == [] {
        return true;
      }
      thrown := false;
      if entrypoints[0].name == "popup" {
        baseViteConfig := Some(config);
      }
    }

    /**
     * The `build:done` handler: build with the merged config minus `build`
     * and `publicDir`, then run the splice unit. `prebuild` is the default
     * export of `vite.config.ts`.
     */
    method OnBuildDone(prebuild: Config, merge: Merge, viteBuild: ViteBuild) returns (o: Outcome)
      modifies this`builds, out
      ensures builds == old(builds) + [PopupBuildConfig(merge, baseViteConfig, prebuild)]
      ensures (o, out.files) == AfterBuild(viteBuild(PopupBuildConfig(merge, baseViteConfig, prebuild), old(out.files)), old(out.files))
    {
      var finalConfig := PopupBuildConfig(merge, baseViteConfig, prebuild);
      builds := builds + [finalConfig];
      o := BuildAndSplice(out, finalConfig, viteBuild);
    }

    /** `hookOnce("build:done")`: registers the watcher, if there is a dev server, the first time only. */
    method OnFirstBuildDone(devServer: bool)
      modifies this`watchHookRan, this`watchedPath
      ensures watchHookRan
      ensures watchedPath ==
        if !old(watchHookRan) && devServer then Some(PopupEntrypointPath(entrypointsDir)) else old(watchedPath)
    {
      if !watchHookRan {
        watchHookRan := true;
        if devServer {
          watchedPath := Some(PopupEntrypointPath(entrypointsDir));
        }
      }
    }

    /**
     * The watcher callback: a path with the popup entrypoint path as a raw
     * prefix runs the inline copy of the build and splice, then
     * `reloadPage("popup.html")` whenever that copy resolved, early return
     * included. `o` is `None` when the event is ignored.
     */
    method OnWatchEvent(file: string, prebuild: Config, merge: Merge, viteBuild: ViteBuild)
      returns (o: Option<Outcome>)
      modifies this`builds, this`reloads, out
      ensures o.Some? <==> watchedPath.Some? && PopupWatchTriggers(watchedPath.value, file)
      ensures o.None? ==> builds == old(builds) && reloads == old(reloads) && out.files == old(out.files)
      ensures o.Some? ==>
        var finalConfig := PopupBuildConfig(merge, baseViteConfig, prebuild);
        && builds == old(builds) + [finalConfig]
        && (o.value, out.files) == AfterBuild(viteBuild(finalConfig, old(out.files)), old(out.files))
        && reloads == old(reloads) + (if o.value.Completed() then [ReloadPage("popup.html")] else [])
    {
      if watchedPath.None? || !PopupWatchTriggers(watchedPath.value, file) {
        return None;
      }
      var outcome := OnBuildDone(prebuild, merge, viteBuild);
      if outcome.Completed() {
        reloads := reloads + [ReloadPage("popup.html")];
      }
      o := Some(outcome);
    }
  }
}
