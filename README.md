# add-asset-html-webpack-plugin: `addAllAssetsToCompilation` in Dafny

This project models `src/addAllAssetsToCompilation.js`, the module that injects
externally supplied asset files (scripts, stylesheets and their sourcemaps) into a
webpack compilation so that html-webpack-plugin lists them in the generated page.
For every asset descriptor, in order, it checks that a `filepath` is given (recording
a `No filepath defined` error otherwise), asks the host plugin to register the file,
builds the asset's public path (a public-path prefix that is empty or ends in `/`, the registered
name, and optionally `?` plus 20 digits of the content's md5), puts that path at the
front of the list for the asset's type, moves the registered entry under `outputPath`
when one is given, and, unless `includeSourcemap` is false, does the same registration and move for `filepath.map`. The
first failure ends the run and is reported with the partially updated data object.

Files and modules:

- `types.dfy` (module `Types`): JavaScript `?string` values (`Nullable`: undefined,
  null or a string), asset descriptors with their defaults (`typeOfAsset` = `'js'`,
  `includeSourcemap` = true, `hash` = false), asset-table entries, errors, and the
  `Host` value standing for the code this model does not see.
- `paths.dfy` (module `Paths`): `ensureTrailingSlash`, `resolvePublicPath`, the hash
  suffix and the resolved public path, as functions.
- `semantics.dfy` (module `Semantics`): what the module does to the state it mutates,
  as functions (`Relocate` for `resolveOutput`, `Step` for `addFileToAssets`, `Run` for
  the default export) and the lemmas about them: ordered composition, stop at the
  first failure, error accounting, reverse-order prepending.
- `compilation.dfy` (module `AddAssets`): the compilation object and the HTML plugin
  data object as classes whose fields the methods update in place, as the source
  does; each method's postcondition ties the new state to the functions above.

The host collaborators are parameters: `Host.addFileToAssets` is the host plugin's
registration (it yields the output name and the file's content, or a rejection; on
success the content is stored in the asset table under that name), `Host.md5Hex` is
the md5 hex digest of an asset's content, and `Host.relativeToDir(f)` is
`path.relative(path.dirname(f), '.')`.

The code prepends the path (line 61) before it relocates the entry (line 63); the
model keeps that order, which matters when a run fails part-way.

## Model

| member | source | states |
|---|---|---|
| Types.NonEmpty | src/addAllAssetsToCompilation.js:28 | JavaScript truthiness of a `?string` (as tested at lines 10, 28 and 41): a string of length at least one |
| Types.TypeKey | src/addAllAssetsToCompilation.js:39 | an absent `typeOfAsset` defaults to `'js'`, a given one is used as it is |
| Types.IncludeSourcemap | src/addAllAssetsToCompilation.js:39 | an absent `includeSourcemap` defaults to true |
| Types.Hashed | src/addAllAssetsToCompilation.js:39 | an absent `hash` defaults to false |
| Paths.EnsureTrailingSlash | src/addAllAssetsToCompilation.js:9-15 | null, undefined or `""` give `""`; a non-empty string is kept when it ends in `/` and otherwise extended by exactly one character; the result is always empty or ends in `/` |
| Paths.EnsureTrailingSlashIdempotent | src/addAllAssetsToCompilation.js:9-15 | normalising twice gives the same string as normalising once |
| Paths.EnsureTrailingSlashFixedPoints | src/addAllAssetsToCompilation.js:9-15 | a string is left unchanged if and only if it is empty or ends in `/` |
| Paths.ResolvePublicPath | src/addAllAssetsToCompilation.js:18-25 | the result is `EnsureTrailingSlash` of the configured public path when it is not undefined (so null or `""` give `""`), and of the relative path from the file's directory otherwise; it is empty or ends in `/` |
| Paths.Take | src/addAllAssetsToCompilation.js:53 | `substr(0, n)` yields a prefix of length `min(n, |s|)` |
| Paths.HashSuffix | src/addAllAssetsToCompilation.js:49-54 | without `hash` the suffix is empty; with it, `?` followed by a prefix of the digest of at most 20 characters |
| Paths.PublicPrefix | src/addAllAssetsToCompilation.js:56-58 | the prefix is `EnsureTrailingSlash` of the descriptor's `publicPath` when that is not undefined, and `ResolvePublicPath` of the compilation's setting otherwise; it is empty or ends in `/` |
| Paths.ResolvedPath | src/addAllAssetsToCompilation.js:49-59 | the resolved path is the prefix, then the registered name, then nothing (no hash) or `?` and the digest's head; exactly 21 characters follow the name when hashing a digest of at least 20 characters |
| Semantics.Destination | src/addAllAssetsToCompilation.js:30 | the destination key `outputPath/name` is longer than, hence different from, `name` |
| Semantics.DestinationInjective | src/addAllAssetsToCompilation.js:30 | distinct names are moved to distinct keys |
| Semantics.Relocate | src/addAllAssetsToCompilation.js:27-34 | with a non-empty `outputPath` the value at `name` (or `undefined`) lands at `outputPath/name`, `name` is gone, the key set changes by exactly those two keys and every other key keeps its value; otherwise the table is unchanged |
| Semantics.RelocateKeepsSize | src/addAllAssetsToCompilation.js:27-34 | moving a present entry to a free key keeps the number of entries |
| Semantics.WithPath | src/addAllAssetsToCompilation.js:61 | `unshift` makes the path element 0 of its type's list, the list grows by one with the old elements after it in order, and every other type's list is unchanged |
| Semantics.Step | src/addAllAssetsToCompilation.js:36-71 | a step succeeds exactly when the file path is present, the file's registration succeeds, the `.map` registration succeeds unless `includeSourcemap` is false, and the type has a list; a missing file path appends exactly one error and changes no list and no table entry; only that case appends an error; a host rejection of the file leaves the state as it was; a missing list for the type reports `NotAList` with only the registration left in the table; a rejected `.map` registration reports that rejection with the file registered and relocated; the lists always end as `WithPath` says |
| Semantics.StepListFor | src/addAllAssetsToCompilation.js:61 | a successful step puts exactly its own resolved path in front of its type's list and leaves every other type's list as it was |
| Semantics.StepPlacesAssets | src/addAllAssetsToCompilation.js:63-68 | after a successful step the file, and its sourcemap unless `includeSourcemap` is false, sit under `outputPath/name` with their bare names removed, or under their bare names without an output path (the file's own entry when the sourcemap's name does not collide with it) |
| Semantics.StepKeepsOtherEntries | src/addAllAssetsToCompilation.js:36-71 | a successful step leaves every asset-table key other than the two registered names and their destinations present or absent as before, with the same value |
| Semantics.Run | src/addAllAssetsToCompilation.js:80-86 | a run appends one error exactly when it ends with the missing-file-path error, and never adds or removes a per-type list |
| Semantics.RunAppend | src/addAllAssetsToCompilation.js:81 | running `ds + es` is running `ds` and then, only if it succeeded, `es` from the state it reached |
| Semantics.RunFailsAt | src/addAllAssetsToCompilation.js:80-86 | a failed run failed at some descriptor `k`: all descriptors before `k` succeeded, the step at `k` produced the reported error and the final (partial) state, and later descriptors were not processed |
| Semantics.RunPrependsInReverse | src/addAllAssetsToCompilation.js:81 | after a fully successful run each type's list is that type's paths in reverse input order, one per descriptor, followed by its original contents |
| Semantics.PrependedHas | src/addAllAssetsToCompilation.js:61 | in a successful run every descriptor's type has a list and its path is among the paths prepended to that list |
| Semantics.RunListsAllPaths | src/addAllAssetsToCompilation.js:81 | in a successful run every descriptor's type has a list and its path ends up in that list |
| AddAssets.ResolveOutput | src/addAllAssetsToCompilation.js:27-34 | the in-place assignment and `delete` leave the asset table as `Relocate` says |
| AddAssets.HostAddFileToAssets | src/addAllAssetsToCompilation.js:47 | the host's answer is returned, and on success the content is stored under the returned name |
| AddAssets.AddFileToAssets | src/addAllAssetsToCompilation.js:36-71 | the outcome and the new asset table, error list and per-type lists are those of `Step` on the old state |
| AddAssets.AddAllAssetsToCompilation | src/addAllAssetsToCompilation.js:74-87 | the loop leaves the objects in the state `Run` gives, reports `Run`'s error (none on success), and hands back the same data object it was given |

## Left out

- The md5 digest (lines 51-53) is the abstract `Host.md5Hex`; nothing is assumed about it beyond being a string, so the 21-character suffix is stated only for digests of at least 20 characters.
- `path.relative(path.dirname(filename), '.')` (line 22) is the abstract `Host.relativeToDir`.
- The host plugin's registration (lines 47 and 66) is the abstract `Host.addFileToAssets`: its choice of output name, its file reads and its other effects on the compilation (such as file dependencies) are not modelled; it is deterministic per path, and a rejection changes nothing.
- Promises, `async`/`await` and Bluebird's `mapSeries` are modelled as a sequential loop with early exit; the callback is modelled as the driver's two results.
- AddAssets.AddAllAssetsToCompilation: the callback's own behaviour is not modelled; if `callback(null, htmlPluginData)` (line 83) throws, the `catch` (lines 84-85) calls the callback a second time with that exception, which the model does not capture.
- Semantics.WithPath: the per-type lists are assumed to be distinct arrays; if two keys of `htmlPluginData.assets` held the same array, the in-place `unshift` (line 61) would change both, which the model's "other lists unchanged" does not capture.
- Reading `compilation.assets[addedFilename].source()` (line 52) throws for a missing entry, but the entry was just registered, so that error path cannot arise in the model and is not represented.
- Option values of other JavaScript types (a non-boolean `hash`, a `null` `typeOfAsset` used as the key `"null"`, a non-array value in `htmlPluginData.assets`) are not modelled; `htmlPluginData.assets` is modelled as its array-valued entries only, and a type without one fails as the TypeError of `unshift` does.
- Object keys inherited from JavaScript's prototype chain are not modelled; the asset table is a plain map.
- The Flow types in `../types` are not part of this model.
