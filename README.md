# SvelteKit builder for WXT, modelled in Dafny

The repository ships a WXT module in three variants, plus the SvelteKit config that goes with them:

- `packages/module-sveltekit/src/sveltekit-builder.ts` (published) and `modules/sveltekit-builder.ts` (in-repo). Both run vite's `build` on a SvelteKit site after WXT's own build. They then pull two fragments out of the site's `index.html` with two regular expressions, splice the fragments into the `popup.html` shell WXT generated, move `popup/_app` to `_app` and delete `popup/`. On a dev server they do the same again whenever the watcher reports a path that starts with `<entrypointsDir>/popup`, and then reload `popup.html`. The test is a raw string prefix, so a sibling path such as `entrypoints/popup.html` or `entrypoints/popup-old/x.ts` triggers it too. The in-repo variant also adds an unscoped `{}` entry to the manifest's `web_accessible_resources`.
- `modules/sveltekit/sveltekit-builder.ts` builds the site as an ESM content script instead. It passes vite's merged config to `build` unchanged and rebuilds when the watcher reports a path that starts with `<entrypointsDir>/content`, except `<entrypointsDir>/content/index.ts`. This is again a raw prefix test, so sibling paths such as `entrypoints/content-old/x.ts` trigger it too. It then asks the dev server to reload the content script, adds a manifest entry scoped to the content script's `matches`, and registers two public paths.
- `example/svelte.config.ts` rewrites the generated tsconfig's `include` list, turning the first `vite.config` in each entry into `*.config`.

How the model is laid out, by module:

- `Strings`: JavaScript's `String.prototype.replace` with a string pattern. It replaces the first occurrence only, is the identity when there is none, and expands the replacement's `$$`, `$&`, `` $` `` and `$'`.
- `HtmlExtract`: the two regular expressions as predicates, together with a search that is proved to return their leftmost-longest match.
- `HtmlSplice`: the shell rewrite.
- `ViteConfig`: configs as maps, and the `build`/`publicDir` stripping.
- `OutputDirs`: the output directory as a map from paths to contents, with `writeFile`, `rename` and `rm` as methods of a class.
- `PopupUnit`: one build-and-splice run, as a function of the directory and as the method that performs it call by call.
- `WxtHost`: what the host passes to the hooks.
- `PackagedBuilder`, `PopupBuilder` and `ContentBuilder`: the three modules. Each is a class whose fields are the module's closure variables, and each hook is a method.
- `SvelteConfig`: the tsconfig callback.

Calls into code outside the repository are parameters or logs:

- vite's `mergeConfig` is a `Merge` function.
- vite's `build` is a function from the config and the directory to the new directory, or to nothing when its promise rejects. The content-script builder sees only whether the promise resolves.
- the dev server's `reloadPage` and `reloadContentScript` are appended to a `reloads` log.
- the configs handed to `build` are appended to a `builds` log.

## Behaviour of the code worth knowing

- The anchors `</head>` and `<body></body>` are not checked. `replace` rewrites the first occurrence of each and silently does nothing when an anchor is absent (`HtmlSplice.SpliceWithoutBodyAnchor`).
- A `$` in a fragment is a replacement pattern for `replace`. For example, `$&` re-inserts the anchor (`Strings.ReplaceExpandsMatched`).
- The head expression needs a line break and two tabs before `<link `. A SvelteKit page written on one line therefore makes the unit return early with "Could not find tags" and leaves the directory untouched (`PopupUnit.SingleLinePageAborts`).
- `rename` cannot move `popup/_app` onto an `_app` that already holds files. So, as long as the `_app` of an earlier completed run is still there, a later run cannot complete (`PopupUnit.NoSecondDone`):
  - once past the tag check, it writes the spliced `popup.html` and then fails at the rename, so the callback throws and no reload is sent;
  - without the tags, it returns early, writes nothing, and the reload is still sent.
- A rejected `build` stops the run before anything is read or written. No reload follows.

## Model

| member | source | states |
|---|---|---|
| Strings.StartsWith | modules/sveltekit-builder.ts:80 | `file.startsWith(prefix)`: holds exactly when the prefix occurs at index 0 |
| Strings.Substitute | modules/sveltekit-builder.ts:49-51 | the text `replace` inserts for a string pattern: `$$` gives `$`, `$&` the matched text, `` $` `` the text before the match, `$'` the text after it, and any other `$` stands for itself |
| Strings.ReplaceFirst | modules/sveltekit-builder.ts:49-51 | `replace` with a string pattern: the identity when the pattern occurs nowhere; otherwise the text before the first occurrence, the `$`-expanded replacement, then the text after it |
| Strings.SubstituteLiteral | modules/sveltekit-builder.ts:49-51 | a replacement with no `$` is inserted as it is |
| Strings.ReplaceFirstLiteral | modules/sveltekit-builder.ts:49-51 | with no `$` in the replacement, exactly the first occurrence is swapped for it and everything else is kept |
| Strings.ReplaceExpandsMatched | modules/sveltekit-builder.ts:49-51 | a fragment holding `$&` re-inserts the matched anchor: `"<p></head>"` with replacement `"<i>$&"` gives `"<p><i></head>"` |
| HtmlExtract.Find | modules/sveltekit-builder.ts:7-8 | the search for a match: any bounds it returns lie inside the text and span at least the fixed parts of the expression; that they are the first opening text and the end of the last closing tag is stated by `HtmlExtract.FindIsLeftmostLongest` |
| HtmlExtract.Match | modules/sveltekit-builder.ts:39-40 | `match(regex)?.[0]`: the matched text, or `undefined`; a matched text is never empty |
| HtmlExtract.HeadFragment | modules/sveltekit-builder.ts:39 | the head expression's match in `index.html` |
| HtmlExtract.BodyFragment | modules/sveltekit-builder.ts:40 | the body expression's match in `index.html` |
| HtmlExtract.FindIsLeftmostLongest | modules/sveltekit-builder.ts:7-8 | the search returns the leftmost start and the longest end of a match of the expression, and that end is the last `close` of the text; when it returns nothing, no substring matches |
| HtmlExtract.MatchIsFound | modules/sveltekit-builder.ts:39-40 | any substring in the expression's language makes the match succeed |
| HtmlExtract.MatchedFragment | modules/sveltekit-builder.ts:39-40 | a matched fragment is a substring of `index.html` that starts with the opening text, ends with the closing tag, is longer than both together (so never empty) and ends at the document's last closing tag |
| HtmlExtract.SingleLineHasNoHead | modules/sveltekit-builder.ts:7 | a document with no line break has no head fragment |
| HtmlSplice.Splice | modules/sveltekit-builder.ts:49-51 | the two chained `replace` calls; a shell with neither anchor comes back unchanged |
| HtmlSplice.SpliceBothAnchors | modules/sveltekit-builder.ts:49-51 | with `$`-free fragments, the head fragment replaces the first `</head>`, and then the body fragment replaces the first `<body></body>` of that text; nothing else changes |
| HtmlSplice.SpliceWithoutHeadAnchor | modules/sveltekit-builder.ts:49-51 | a shell without `</head>` gets only its body anchor replaced |
| HtmlSplice.SpliceWithoutBodyAnchor | modules/sveltekit-builder.ts:49-51 | without a body anchor only the head step applies; a shell with neither anchor comes back unchanged |
| ViteConfig.WithoutBuildKeys | modules/sveltekit-builder.ts:22-26 | the result has no `build` and no `publicDir`; every other key keeps its value; no key is added |
| ViteConfig.PopupBuildConfig | modules/sveltekit-builder.ts:22-26 | the config the popup builders pass to `build`: the merge of the captured config and `vite.config`, with exactly `build` and `publicDir` removed and every other key keeping its merged value |
| ViteConfig.ContentPluginsInOrder | modules/sveltekit/sveltekit-builder.ts:17-19 | the content-script builder's overrides hold only `plugins`: `tailwindcss()`, `sveltekit()` and `devtoolsJson()`, in that order |
| ViteConfig.ContentBuildConfig | modules/sveltekit/sveltekit-builder.ts:17-20 | the config the content-script builder passes to `build`: the merge of the captured config with the three plugins, as it is |
| ViteConfig.WithoutBuildKeysIdempotent | modules/sveltekit-builder.ts:22-26 | stripping twice equals stripping once |
| OutputDirs.WriteOutside | modules/sveltekit-builder.ts:53-60 | writing `popup.html` does not change whether a directory elsewhere is occupied, so the concurrent write does not affect the rename |
| OutputDirs.Without | modules/sveltekit-builder.ts:61 | `rm` with `force`: exactly the files not under the directory remain, with their contents |
| OutputDirs.CanRename | modules/sveltekit-builder.ts:56-59 | `rename` of a directory succeeds when the source is occupied, the destination is empty and the destination is not inside the source |
| OutputDirs.Moved | modules/sveltekit-builder.ts:56-59 | the tree after a successful `rename`: the files outside the source as they were, plus each file from under the source at the same place under the destination |
| OutputDirs.MovedKeepsContent | modules/sveltekit-builder.ts:56-59 | after `rename`, every file that was under the source is at the same relative place under the destination, with the same content |
| OutputDirs.MovedAddsOnlyFromSource | modules/sveltekit-builder.ts:56-59 | every file under the destination after `rename` came from the matching place under the source |
| OutputDirs.MovedEmptiesSource | modules/sveltekit-builder.ts:56-59 | nothing is left under the source after `rename` |
| OutputDirs.MovedKeepsOthers | modules/sveltekit-builder.ts:56-59 | files outside both directories are untouched by `rename` |
| OutputDirs.OutputDir.Read | modules/sveltekit-builder.ts:34-37 | `readFile` succeeds exactly when the file exists and returns its content |
| OutputDirs.OutputDir.Write | modules/sveltekit-builder.ts:54 | `writeFile` sets exactly that one path |
| OutputDirs.OutputDir.Rename | modules/sveltekit-builder.ts:56-59 | `rename` succeeds exactly when the source is occupied, the destination is empty and the destination is not inside the source; then the tree is the moved tree, otherwise unchanged |
| OutputDirs.OutputDir.Remove | modules/sveltekit-builder.ts:61 | `rm` leaves the tree without the directory |
| PopupUnit.FragmentsFound | modules/sveltekit-builder.ts:39-42 | the truthiness guard passes exactly when both expressions match, and then yields both matched texts |
| PopupUnit.RunUnit | modules/sveltekit-builder.ts:30-61 | the read, extract, guard, splice, write, rename and remove steps, run one after another, give the outcome and the directory of the specification function `Unit` |
| PopupUnit.BuildAndSplice | modules/sveltekit-builder.ts:28-61 | `build` followed by the unit; a rejected build ends the run with the directory untouched and an outcome that is not completed |
| PopupUnit.Unit | modules/sveltekit-builder.ts:30-61 | the outcome and the directory of one run after the build: a read failure, the early return with nothing touched, a rename failure after the write, or the spliced, moved and cleaned-up directory |
| PopupUnit.AfterBuild | modules/sveltekit-builder.ts:28-61 | a rejected build gives `BuildFailed` with the directory unchanged; otherwise the unit runs on what the build produced |
| PopupUnit.Falsy | modules/sveltekit-builder.ts:42 | JavaScript's `!v` on a string or `undefined`: `undefined` and the empty string are falsy |
| PopupUnit.Fragments | modules/sveltekit-builder.ts:39-42 | both fragments, or nothing when either is falsy |
| PopupUnit.Written | modules/sveltekit-builder.ts:49-54 | the directory after the `writeFile` of the spliced shell: the same paths, `popup.html` holding `Splice` of its old content, every other file unchanged |
| PopupUnit.TagsMissingExactly | modules/sveltekit-builder.ts:39-47 | the unit returns early exactly when both files are readable and one expression matches nowhere in `index.html`; it then leaves the directory unchanged |
| PopupUnit.DoneAfterGuard | modules/sveltekit-builder.ts:53-61 | past the guard, the unit completes exactly when `popup/_app` is occupied and `_app` is empty |
| PopupUnit.DoneExactly | modules/sveltekit-builder.ts:30-61 | the unit completes exactly when both files are readable, both fragments are found, `popup/_app` is occupied and `_app` is empty |
| PopupUnit.DoneEffect | modules/sveltekit-builder.ts:49-61 | after completion, `popup.html` is the spliced shell, `_app` holds exactly what `popup/_app` held, nothing under `popup/` remains and every other file is unchanged |
| PopupUnit.NoSecondDone | modules/sveltekit-builder.ts:30-61 | once a unit has completed, a later unit cannot complete while the `_app` it produced is still present; if that unit gets past the tag check, it writes the spliced `popup.html` and then fails at the rename |
| PopupUnit.SingleLinePageAborts | modules/sveltekit-builder.ts:39-47 | a single-line `index.html` makes the unit return early with the directory unchanged |
| PopupUnit.PopupEntrypointPath | modules/sveltekit-builder.ts:78 | `resolve(entrypointsDir, "popup")`, the path the popup watchers compare against |
| PopupUnit.PopupWatchTriggers | modules/sveltekit-builder.ts:80 | the popup watchers' test: the changed path starts with the entrypoint path, with no file excluded |
| PopupUnit.RawPrefixTriggersSiblings | modules/sveltekit-builder.ts:78-80 | every path that begins with `<entrypointsDir>/popup` triggers the popup watcher, including the sibling `<entrypointsDir>/popup.html`, which does not lie under `<entrypointsDir>/popup/` |
| WxtHost.Resolve | modules/sveltekit-builder.ts:78 | `path.resolve(dir, name)` for an absolute, normalised directory: the directory, a `/`, then the name |
| WxtHost.FindNamed | modules/sveltekit-builder.ts:67-70 | `find` by name: a result is an entrypoint of the list with that name, and `undefined` means none has it |
| WxtHost.FindNamedIsFirst | modules/sveltekit-builder.ts:66-71 | `find` gives the first entrypoint with the name, and `undefined` only when none has it |
| WxtHost.Appended | modules/sveltekit-builder.ts:91-96 | `??= []` followed by `push`: the earlier entries in order, then exactly the new one; a missing list becomes the one-entry list |
| PackagedBuilder.PackagedModule.constructor | packages/module-sveltekit/src/sveltekit-builder.ts:9-10 | nothing is captured, no watcher is registered, nothing has been built or reloaded |
| PackagedBuilder.PackagedModule.OnExtendConfig | packages/module-sveltekit/src/sveltekit-builder.ts:11-13 | an empty group throws; the config is captured exactly when the first entrypoint is `popup` |
| PackagedBuilder.PackagedModule.OnBuildDone | packages/module-sveltekit/src/sveltekit-builder.ts:16-66 | one build with the stripped merge of the captured config and `vite.config.ts`, then the unit on what that build produced, or `BuildFailed` with nothing touched when the build rejects |
| PackagedBuilder.PackagedModule.OnFirstBuildDone | packages/module-sveltekit/src/sveltekit-builder.ts:69-71 | the watcher on `entrypoints/popup` is registered on the first `build:done` only, and only when there is a dev server |
| PackagedBuilder.PackagedModule.OnWatchEvent | packages/module-sveltekit/src/sveltekit-builder.ts:71-136 | a path with the raw prefix runs the inline copy of the build and unit; `popup.html` is reloaded exactly when that copy resolved (early return included, a rejected build or a failed read or rename excluded); any other path changes nothing |
| PopupBuilder.PopupModule.constructor | modules/sveltekit-builder.ts:10-11 | nothing is captured, no entrypoint is known, no watcher is registered, nothing has been built or reloaded |
| PopupBuilder.PopupModule.OnExtendConfig | modules/sveltekit-builder.ts:12-14 | an empty group throws; the config is captured exactly when the first entrypoint is `popup` |
| PopupBuilder.PopupModule.BuildPopup | modules/sveltekit-builder.ts:16-64 | one build with the stripped merge of the captured config and `vite.config`, then the unit on what that build produced, or `BuildFailed` with nothing touched when the build rejects |
| PopupBuilder.PopupModule.OnEntrypointsResolved | modules/sveltekit-builder.ts:66-71 | the stored popup entrypoint is the first one named `popup`, or none |
| PopupBuilder.PopupModule.OnFirstBuildDone | modules/sveltekit-builder.ts:77-79 | the watcher on `entrypoints/popup` is registered on the first `build:done` only, and only when there is a dev server |
| PopupBuilder.PopupModule.OnWatchEvent | modules/sveltekit-builder.ts:79-87 | a path with the raw prefix rebuilds; `popup.html` is reloaded exactly when `buildPopup` resolved (early return included, a rejected build or a failed read or rename excluded); any other path changes nothing |
| PopupBuilder.PopupModule.OnManifestGenerated | modules/sveltekit-builder.ts:91-96 | `web_accessible_resources` becomes the old list, or an empty one, followed by one unscoped entry |
| PopupBuilder.PopupModule.OnPreparePublicPaths | modules/sveltekit-builder.ts:99 | the public paths are left as they were |
| ContentBuilder.EsmBase | modules/sveltekit/sveltekit-builder.ts:38 | `esmBase`: `resolve(entrypointsDir, "content")` |
| ContentBuilder.ContentWatchTriggers | modules/sveltekit/sveltekit-builder.ts:38-41 | the watcher fires for a path that starts with the base, unless it is exactly the ignored `index.ts` |
| ContentBuilder.WatchIgnoresOnlyIndex | modules/sveltekit/sveltekit-builder.ts:38-41 | `index.ts` under the base has the prefix but never triggers; any other path that starts with the base does |
| ContentBuilder.ContentModule.constructor | modules/sveltekit/sveltekit-builder.ts:9-10 | nothing is captured, no entrypoint is known, no watcher is registered, nothing has been built or reloaded |
| ContentBuilder.ContentModule.OnExtendConfig | modules/sveltekit/sveltekit-builder.ts:11-13 | an empty group throws; the config is captured exactly when the first entrypoint is `popup` |
| ContentBuilder.ContentModule.BuildEsmContentScript | modules/sveltekit/sveltekit-builder.ts:15-24 | one build with the merge of the captured config and the three plugins, passed on unstripped; the handler rejects exactly when `build` does |
| ContentBuilder.ContentModule.OnEntrypointsResolved | modules/sveltekit/sveltekit-builder.ts:26-31 | the stored content script is the first entrypoint named `content`, or none |
| ContentBuilder.ContentModule.OnFirstBuildDone | modules/sveltekit/sveltekit-builder.ts:37-40 | the watcher on `entrypoints/content` is registered on the first `build:done` only, and only when there is a dev server |
| ContentBuilder.ContentModule.OnWatchEvent | modules/sveltekit/sveltekit-builder.ts:40-53 | a triggering path rebuilds; the content script is then reloaded with its `matches` and `/content-scripts/content.js`; the callback instead throws with no reload when the build rejects or no content entrypoint is known |
| ContentBuilder.ContentModule.OnManifestGenerated | modules/sveltekit/sveltekit-builder.ts:57-65 | `??= []` always happens; then one entry scoped to the content script's `matches` with `/content-scripts/esm/*` is added, or the hook throws when no content entrypoint is known |
| ContentBuilder.ContentModule.OnPreparePublicPaths | modules/sveltekit/sveltekit-builder.ts:68-73 | the two ESM paths are appended in order after the existing ones |
| SvelteConfig.RewriteInclude | example/svelte.config.ts:28 | the first `vite.config` in an entry becomes `*.config`; an entry without it is unchanged |
| SvelteConfig.RewriteIncludeList | example/svelte.config.ts:27-29 | `flatMap` with a string-returning callback keeps the length and order, and rewrites each entry |
| SvelteConfig.RewriteEntry | example/svelte.config.ts:28 | an entry without `vite.config` is unchanged; in one with it, only the first occurrence becomes `*.config` and the rest is kept |
| SvelteConfig.TsConfig.ConfigureTypescript | example/svelte.config.ts:26-30 | a missing or non-list `include` throws and changes nothing; otherwise only `include` changes, to the rewritten list |

## Left out

- Reading the files, writing them and launching vite are modelled only through their effect on the output directory. The `Promise.all` concurrency of the two reads, and of the write with the rename, is modelled as one fixed order. Interleavings of overlapping watcher callbacks are not modelled.
- `process.env["WXT_SVELTEKIT_OUTDIR"]` and the dynamic `import` of `vite.config` are not modelled. The imported default export is the `prebuild` parameter, and the adapter is assumed to write into `<outDir>/popup`.
- The logger and `console.log` calls have no effect on the model.
- vite's `mergeConfig` and `build` are parameters, so their own behaviour is not modelled. Whether `build` rejects is part of the model; what it writes is an arbitrary directory. Plugin objects are opaque except for the three named plugins.
- The file-system model does not model the following:
  - empty directories (an empty directory and a missing one look the same);
  - renaming onto an existing file;
  - permissions;
  - reading a directory as a file.
- Paths are already-resolved segment lists. `path.join` and `path.resolve` normalisation (`..`, trailing slashes, the root directory) is not modelled.
- ContentBuilder.ContentModule.OnWatchEvent: a content entrypoint whose `matches` option is undefined is not modelled; `matches` is always a list here.
- ContentBuilder.ContentModule.OnManifestGenerated: the same holds for the `matches` of the manifest entry.
- The TypeScript casts (`as string[]`, the non-null `!`) have no runtime effect and are not modelled. An `include` list holding non-strings, which would throw inside `replace`, is not modelled either.
- PackagedBuilder.PackagedModule.OnExtendConfig, PopupBuilder.PopupModule.OnExtendConfig and ContentBuilder.ContentModule.OnExtendConfig: `baseViteConfig = config` keeps a reference to the host's config object, and the model stores a copy of its value at hook time. Changes the host makes to that object in place after the hook, which `mergeConfig` would then read, are not modelled.
- Hook registration and dispatch by the host (`hook`, `hookOnce`, their ordering) are not modelled. Each hook is a method the host is assumed to call.
- The `eslint.config.ts` and `svelte.config.js` files of the repository are not part of this model.
