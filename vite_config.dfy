/**
 * The vite configurations the builders pass to vite's `build`. `mergeConfig`
 * belongs to vite and is a parameter here; only the key stripping that the
 * popup builders apply to its result, and the plugin list of the content
 * script builder, are modelled.
 */
module ViteConfig {
  import opened Strings

  datatype Plugin = Tailwindcss | Sveltekit | DevtoolsJson | OtherPlugin(name: string)

  /** A top-level value of a vite config; everything but a plugin list is opaque. */
  datatype Value = Plugins(list: seq<Plugin>) | Opaque(text: string)

  type Config = map<string, Value>

  /**
   * vite's `mergeConfig(base, overrides)`. The base is `None` when no
   * `popup` entrypoint has been seen yet and the captured variable is still
   * `undefined`.
   */
  type Merge = (Option<Config>, Config) -> Config

  /**
   * `const { build: _, publicDir: __, ...finalConfig } = merged`: the two
   * keys are gone and every other key keeps its value.
   */
  function WithoutBuildKeys(merged: Config): (r: Config)
    ensures "build" !in r && "publicDir" !in r
    ensures forall k :: k in merged && k != "build" && k != "publicDir" ==> k in r && r[k] == merged[k]
    ensures forall k :: k in r ==> k in merged
  {
    merged - {"build", "publicDir"}
  }

  /** The config both popup builders hand to `build`. */
  function PopupBuildConfig(merge: Merge, base: Option<Config>, prebuild: Config): (r: Config)
    ensures "build" !in r && "publicDir" !in r
    ensures forall k :: k in r <==> k in merge(base, prebuild) && k != "build" && k != "publicDir"
    ensures forall k :: k in r ==> r[k] == merge(base, prebuild)[k]
  {
    WithoutBuildKeys(merge(base, prebuild))
  }

  /** `{ plugins: [tailwindcss(), sveltekit(), devtoolsJson()] }` */
  const ContentPrebuildConfig: Config := map["plugins" := Plugins([Tailwindcss, Sveltekit, DevtoolsJson])]

  /** The config the content script builder hands to `build`: the merge result as it is. */
  function ContentBuildConfig(merge: Merge, base: Option<Config>): Config
  {
    merge(base, ContentPrebuildConfig)
  }

  /**
   * The content script builder's overrides hold one key, `plugins`, with
   * exactly the three plugins in source order.
   */
  lemma ContentPluginsInOrder()
    ensures ContentPrebuildConfig.Keys == {"plugins"}
    ensures ContentPrebuildConfig["plugins"].Plugins?
    ensures var plugins := ContentPrebuildConfig["plugins"].list;
      |plugins| == 3 && plugins[0] == Tailwindcss && plugins[1] == Sveltekit && plugins[2] == DevtoolsJson
  {
  }

  /** Stripping a config that has already been stripped changes nothing. */
  lemma WithoutBuildKeysIdempotent(merged: Config)
    ensures WithoutBuildKeys(WithoutBuildKeys(merged)) == WithoutBuildKeys(merged)
  {
    var once := WithoutBuildKeys(merged);
    assert WithoutBuildKeys(once).Keys == once.Keys;
  }
}
