/**
 * What the WXT host hands to the builders' hooks and receives from them:
 * resolved entrypoints, the generated manifest, the list of public paths,
 * and the live-reload requests sent to the dev server.
 */
module WxtHost {
  import opened Strings

  /** A resolved entrypoint: its name and, for a content script, its `matches` option. */
  datatype Entrypoint = Entrypoint(name: string, matches: seq<string>)

  /** The index of the first entrypoint at or after `k` called `name`. */
  function FirstNamedFrom(entrypoints: seq<Entrypoint>, name: string, k: nat): (r: Option<nat>)
    decreases |entrypoints| - k
    ensures r.Some? ==> k <= r.value < |entrypoints| && entrypoints[r.value].name == name
    ensures forall j :: k <= j < |entrypoints| && (r.None? || j < r.value) ==> entrypoints[j].name != name
  {
    if |entrypoints| <= k then None
    else if entrypoints[k].name == name then Some(k)
    else FirstNamedFrom(entrypoints, name, k + 1)
  }

  /** `entrypoints.find((e) => e.name === name)`, with `None` for `undefined`. */
  function FindNamed(entrypoints: seq<Entrypoint>, name: string): (r: Option<Entrypoint>)
    ensures r.Some? ==> r.value in entrypoints && r.value.name == name
    ensures r.None? ==> forall e :: e in entrypoints ==> e.name != name
  {
    match FirstNamedFrom(entrypoints, name, 0)
    case None => None
    case Some(i) => Some(entrypoints[i])
  }

  /**
   * `find` returns the first entrypoint with the name, and `undefined` only
   * when there is none.
   */
  lemma FindNamedIsFirst(entrypoints: seq<Entrypoint>, name: string)
    ensures FindNamed(entrypoints, name).Some? ==>
      exists i :: 0 <= i < |entrypoints| && entrypoints[i] == FindNamed(entrypoints, name).value
        && entrypoints[i].name == name && forall j :: 0 <= j < i ==> entrypoints[j].name != name
    ensures FindNamed(entrypoints, name).None? ==> forall e :: e in entrypoints ==> e.name != name
  {
    var r := FirstNamedFrom(entrypoints, name, 0);
    if r.Some? {
      var i := r.value;
      assert entrypoints[i] == FindNamed(entrypoints, name).value;
    }
  }

  /** `path.resolve(dir, name)` for an absolute, normalised `dir` other than the root. */
  function Resolve(dir: string, name: string): string
  {
    dir + "/" + name
  }

  /** An entry of the manifest's `web_accessible_resources`. */
  datatype WebAccessibleResource =
    | Unscoped                                               // `{}`
    | Scoped(matches: seq<string>, resources: seq<string>)  // `{ matches, resources }`

  /** The manifest object passed to `build:manifestGenerated`; the hooks change it in place. */
  class Manifest {
    var webAccessibleResources: Option<seq<WebAccessibleResource>>

    constructor (webAccessibleResources: Option<seq<WebAccessibleResource>>)
      ensures this.webAccessibleResources == webAccessibleResources
    {
      this.webAccessibleResources := webAccessibleResources;
    }
  }

  /**
   * `list ??= []` followed by `list.push(entry)`: the earlier entries in
   * their order, then exactly the one new entry.
   */
  function Appended(list: Option<seq<WebAccessibleResource>>, entry: WebAccessibleResource): (r: seq<WebAccessibleResource>)
    ensures |r| == |list.GetOr([])| + 1
    ensures r[..|r| - 1] == list.GetOr([]) && r[|r| - 1] == entry
    ensures list.None? ==> r == [entry]
  {
    list.GetOr([]) + [entry]
  }

  /** The array passed to `prepare:publicPaths`; the hooks push onto it. */
  class PublicPaths {
    var paths: seq<string>

    constructor (paths: seq<string>)
      ensures this.paths == paths
    {
      this.paths := paths;
    }
  }

  /** A request to the dev server's live-reload channel. */
  datatype Reload =
    | ReloadPage(page: string)
    | ReloadContentScript(matches: seq<string>, js: seq<string>)
}
