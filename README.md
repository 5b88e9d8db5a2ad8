# mpx webpack-plugin: package placement and dedup bookkeeping

This project models the bookkeeping that the mpx webpack plugin keeps while it builds one mini-program. All of it lives in `packages/webpack-plugin/lib/index.js`. The plugin decides which package (the main package or a subpackage) each component, static resource and subpackage module is emitted into, and records that placement. Three things hang off those records: a write-once cache of extracted file names, a graph of entry nodes, and a proxy that skips writing a file whose content has not changed. Small pure helpers decide which package a chunk belongs to.

Modules:

- `Placement` holds the per-kind registries. Each maps a package name to a resource path to an entry. An entry is a recorded output path or the claim marker `true`. The module also holds the placement rule of `getPackageInfo`:
  - `Resolve` specifies the whole operation as a function of the registry and the build context.
  - `Target` and `Record` are its two halves.
  - `CollectDuplicateWarnings` is the duplication-audit loop.
  - The lemmas relate consecutive placements.
- `Chunks` holds `isChunkInPackage`, the per-package split-chunks cache group and the runtime-chunk name rule.
- `Extraction` holds the naming rules of `getExtractedFile`: the cache key, the static output template, and the name lookup for the app, pages and components.
- `EntryGraph` holds the `EntryNode` class with its two edge sets.
- `WriteFilter` holds the `writeMode: 'changed'` proxy of the output file system's `writeFile`.
- `BuildContext` holds the class `Mpx`, which stands for the per-compilation `mpx` object. Its fields are the registries, the name tables, the extracted-file cache and the entry maps. Its methods `GetPackageInfo`, `GetExtractedFile` and `GetEntryNode` update those fields in place. `GetPackageInfo` and `GetExtractedFile` are proved equal to the specification functions above. `GetEntryNode` has no specification function; its contract states the new state of the entry maps and the node directly.

The model takes the collaborators it cannot see as parameters: the `forceMainPackageRules` condition, `mpx.pathHash`, `path.parse(...).name` and `typeExtMap`. `Options` holds them as function-valued fields. `path.join` followed by `toPosix` is modelled as joining with one `/`, where an empty part is dropped and an empty result becomes `"."`.

## Model

| member | source | states |
|---|---|---|
| Placement.Resolve | packages/webpack-plugin/lib/index.js:482-528 | Main precedence: when main claims the resource (the claim is truthy) or a force-main rule matches, and the package is not independent, the result is package `main` with root `""`. Otherwise the result is the current package and its root. With a truthy output path, the result path is the root joined with it, and the registry holds exactly that path; without one, the registry holds the marker `true`. `alreadyOutputed` holds iff that exact path was already recorded, and then the registry is unchanged. Only `[packageName][resourcePath]` is written, and that inner map is created when absent. A warning is issued iff the placement stayed in the current package, the audit covers this kind, and another non-main package claims the resource. |
| Placement.Record | packages/webpack-plugin/lib/index.js:506-527 | Recording in `packageName`'s map writes that one entry and nothing else. The inner map is created if absent. `alreadyOutputed` holds exactly when the same joined path is already there, and then the registry is returned unchanged. |
| Placement.Target | packages/webpack-plugin/lib/index.js:483-504 | The first half of the placement. With main claiming the resource or a force-main rule matching, and the package not independent, the target is `main` with root `""` and no warnings. Otherwise it is the current package and its root. A warning is issued iff the placement stays in the current package, the audit covers the kind, and another non-main package claims the resource. `Resolve` restates these clauses for the whole operation. |
| Placement.DuplicateWarnings | packages/webpack-plugin/lib/index.js:496-503 | The audit's warnings are exactly one per package key that is not `main`, is not `packageName`, and whose map claims the resource. |
| Placement.CollectDuplicateWarnings | packages/webpack-plugin/lib/index.js:496-503 | The audit loop over the registry's package keys computes exactly `DuplicateWarnings`. It only reads the registry. |
| Placement.PackageNameOf | packages/webpack-plugin/lib/index.js:487 | The current package's name is its root when the root is set, and `main` for the empty root. It is never empty. |
| Placement.Join | packages/webpack-plugin/lib/index.js:511 | The joined output path is never empty. Under the empty root it is the template itself. Under a non-empty root it is the root, one `/`, then the template. |
| Placement.JoinInjective | packages/webpack-plugin/lib/index.js:510-511 | Under one package root, two distinct templates that are normalised relative paths never join to the same output path. Normalised means: non-empty, no leading or trailing `/`, and no empty, `.` or `..` segment. |
| Placement.ClaimsPersist | packages/webpack-plugin/lib/index.js:506-520 | A claim, once recorded, is never withdrawn: after any placement, every package that claimed a resource still claims it. |
| Placement.ResolveAgain | packages/webpack-plugin/lib/index.js:509-517 | Placing the same resource again in the same context goes to the same package and leaves the registry unchanged. It reports `alreadyOutputed` exactly when an output path is given. |
| Placement.RecordAgain | packages/webpack-plugin/lib/index.js:509-517 | Recording the same placement twice: the second recording changes nothing and returns the same result, with `alreadyOutputed` set exactly when an output path is given. |
| Placement.MainClaimSharedBySubpackage | packages/webpack-plugin/lib/index.js:477-528 | A resource placed from main is then shared by any non-independent subpackage. The subpackage's call resolves to main, gets main's path, finds it already output, changes nothing and warns about nothing. |
| Placement.IndependentKeepsOwnCopy | packages/webpack-plugin/lib/index.js:489-495 | Independent wins: even when main claims the resource, an independent subpackage places it under its own root, leaves main's map alone and issues no audit warning. |
| Placement.SiblingsDuplicateWithWarning | packages/webpack-plugin/lib/index.js:496-503 | Two sibling subpackages referencing an unclaimed static resource each get their own copy under their own root. The first placement warns about nothing; the second warns exactly once, naming the first sibling. |
| Chunks.IsChunkInPackage | packages/webpack-plugin/lib/index.js:52-54 | A chunk belongs to a package iff its name is the package name, then `/`, then any rest. |
| Chunks.IsChunkInPackageAsWritten | packages/webpack-plugin/lib/index.js:52-54 | The source's test, with the package name spliced unescaped into the RegExp. It covers names whose only metacharacter is `.` and chunk names without characters above U+FFFF. A match still needs a `/` right after as many characters as the name has. |
| Chunks.DottedPackageClaimsForeignChunk | packages/webpack-plugin/lib/index.js:52-54 | As written, package `sub.a` claims chunk `subXa/pages/index`, which the literal test rejects. |
| Chunks.LiteralTestRefinesAsWritten | packages/webpack-plugin/lib/index.js:52-54 | For package names whose only RegExp metacharacter is `.` (none of `\ ^ $ * + ? ( ) [ ] { } \|`), every chunk the literal test accepts is accepted by the as-written RegExp test too. For such names that also have no `.`, the two tests agree. |
| Chunks.AllChunksInPackage | packages/webpack-plugin/lib/index.js:65-69 | `chunks.every(...)` holds iff every listed chunk is in the package. |
| Chunks.GetPackageCacheGroup | packages/webpack-plugin/lib/index.js:56-77 | Main's group is `bundle`, with no test, so it accepts every module. A subpackage's group is `<pkg>/bundle` with `minSize` 1000 and `priority` 100; its test, given the names of the module's chunks (the webpack 4 signature), accepts iff every one of them is in the subpackage. Both groups have `minChunks` 2 and `chunks: 'all'`. |
| Chunks.RuntimeChunkName | packages/webpack-plugin/lib/index.js:253-260 | The runtime chunk is `bundle` iff the entry point lies in no independent subpackage. Otherwise it is `<pkg>/bundle` for the first independent subpackage, in key order, that contains the entry point. |
| Extraction.ExtractedKey | packages/webpack-plugin/lib/index.js:449 | The cache key starts with the resource path and ends with the package name. The type sits in between, with a `\|` on each side. |
| Extraction.RequestPackageName | packages/webpack-plugin/lib/index.js:448 | The package of a request is its `packageName` query when that is set, else the current package root, else `main`. It is never empty. |
| Extraction.ExtractedKeyInjective | packages/webpack-plugin/lib/index.js:449 | Requests that differ in resource path, type or package never share a cache key, provided neither path nor type contains `\|`. |
| Extraction.StaticTemplate | packages/webpack-plugin/lib/index.js:456-457 | A static resource's template is always a truthy output path, so its placement always records and returns a path. |
| Extraction.LookupName | packages/webpack-plugin/lib/index.js:464-468 | With no app info, the lookup throws. A request equal to the app's gets the app's name. Otherwise the page table wins, then the package's component table; a component recorded as `true` is named "true". Reaching the component table of a package with no table throws. A name found is never empty. |
| Extraction.NamedFile | packages/webpack-plugin/lib/index.js:468-472 | The file name is the found name plus the type's extension. If no name was found, it is `missing-filename` plus the extension, and exactly then an error is reported. |
| EntryGraph.EntryNode.constructor | packages/webpack-plugin/lib/index.js:87-93 | A new node carries its request and type, no module, and empty parent and child sets. |
| EntryGraph.EntryNode.AddChild | packages/webpack-plugin/lib/index.js:95-98 | Adding a child puts the child in this node's children and this node in the child's parents. Nothing else changes (a self-loop also adds to this node's parents). Adding an existing edge changes nothing. |
| WriteFilter.WriteDecision | packages/webpack-plugin/lib/index.js:283-285 | A write is skipped iff the content equals the content last written to the path. It throws iff a Buffer was last written and a string is now given. A first write is always forwarded. |
| WriteFilter.ChangedContentWriter.constructor | packages/webpack-plugin/lib/index.js:280 | The filter starts with no remembered content. |
| WriteFilter.ChangedContentWriter.WriteFile | packages/webpack-plugin/lib/index.js:282-289 | The proxied write follows `WriteDecision` on the last content remembered for the path. It remembers the new content exactly when it forwards the write, and otherwise leaves the map unchanged. |
| WriteFilter.ChangedContentWriter.WriteTwice | packages/webpack-plugin/lib/index.js:282-289 | Writing the same content twice in a row: the second write is never forwarded, and unless the first threw, it is skipped. |
| BuildContext.Mpx.constructor | packages/webpack-plugin/lib/index.js:357-417 | A compilation starts with a `main` map in each of the three registries. Everything else starts empty: no app info, no independent subpackages, current root `""`. |
| BuildContext.Mpx.GetPackageInfo | packages/webpack-plugin/lib/index.js:482-528 | The method returns what `Resolve` prescribes for the registry of the requested kind and for the current context, and leaves that registry as `Resolve` does. The other two registries are untouched, and every registry keeps its `main` map. |
| BuildContext.Mpx.ComputeTarget | packages/webpack-plugin/lib/index.js:483-504 | The branch on main's claim, the force-main rule and independence, together with the audit it runs, computes exactly `Target`. |
| BuildContext.Mpx.RecordPlacement | packages/webpack-plugin/lib/index.js:506-527 | The in-place recording computes exactly `Record` and writes only the registry of its kind. |
| BuildContext.Mpx.GetExtractedFile | packages/webpack-plugin/lib/index.js:444-476 | On a cache hit, the cached name is returned and nothing changes. On a miss for a static resource, the resource is placed in the static-resources registry as `Resolve` prescribes, and the output path is returned and cached. On a miss for a page or component, the name is taken from the tables, falling back to `missing-filename`, and is cached. A thrown TypeError caches nothing. |
| BuildContext.Mpx.ExtractStatic | packages/webpack-plugin/lib/index.js:455-462 | On a cache miss, a static resource is placed in the static-resources registry as `Resolve` prescribes. Its output path is returned and cached under the request's key, and the other registries are untouched. |
| BuildContext.Mpx.ExtractNamed | packages/webpack-plugin/lib/index.js:463-475 | On a cache miss, a page or component is named as `LookupName` and `NamedFile` prescribe, and the file name is cached under the request's key. A TypeError caches nothing. |
| BuildContext.Mpx.GetEntryNode | packages/webpack-plugin/lib/index.js:418-436 | The same request always yields the same node, which is created (fresh, with no edges) only on first use. A type mismatch appends one conflict error, and the node keeps its first type. A supplied module is set on the node and mapped to it; without one, the module maps are unchanged. |

## Left out

- The webpack hook wiring, the parser hooks, the source stitching in `processAssets`, the loader and mode rules, the build-map emission and the `finishMake` queue are host plumbing around this core. This includes `processedChunk`, the guard that processes each chunk once.
- `packages/webpack-plugin/lib/template-compiler/index.js` is not part of this model: its logic lives in a compiler that is not visible.
- `matchCondition`, `hash-sum` (`mpx.pathHash`, including the `relative` hash mode), `path.parse` and `typeExtMap` are opaque function parameters. `path.join` does no normalisation at all in this model. It does not fold `.` or `..` segments, and it does not collapse repeated `/`. For example, root `sub/` with template `a` gives `sub//a` here, where `path.join` gives `sub/a`; the same happens for a template like `img//x.png`.
- Placement.JoinInjective: holds only for templates that are normalised relative paths. Under real path normalisation, other templates collide: `a` and `./a`, `a//b` and `a/b`, and under root `sub`, `x` and `../sub/x`.
- Chunks.IsChunkInPackageAsWritten: interprets only the `.` metacharacter of the spliced package name. For names with other RegExp syntax, the source's test behaves differently. For example, `a|b` accepts `ax/p`, `a+` rejects `a+/x`, and `a(` throws a SyntaxError. None of this is modelled. The member also reads a chunk name as Unicode characters, where the RegExp (which has no `u` flag) matches `.` against one UTF-16 code unit. So for chunk names with characters above U+FFFF it can differ from the source. For example, package `a.b` and chunk `a😀b/x`: the model accepts, the source rejects.
- Chunks.GetPackageCacheGroup: uses the literal test, so for package names containing RegExp syntax it differs from the source's cache-group test. The group's `test` is modelled as receiving the names of the module's chunks, which is the `test(module, chunks)` signature of webpack 4. The closure at index.js:65-69 calls `every` on its second argument. Webpack 5's split-chunks plugin passes a `{ chunkGraph, moduleGraph }` object there instead, which has no `every`. That calling convention lies outside the files modelled here, so the model neither states nor refutes that the call throws under webpack 5.
- Chunks.RuntimeChunkName: uses the literal test, so for independent package names containing RegExp syntax it differs from the source's runtime-chunk rule.
- `parseRequest` is not modelled. A request arrives already split into its resource path and query fields.
- The optional `warn` and `error` callbacks are not called. `Resolve` and `GetExtractedFile` return the audit warnings as a set, and `GetExtractedFile` returns a `missingName` flag instead. The warning texts and the order of `Object.keys` are not modelled.
- The `independentSubpackagesMap` values are assumed to be `true`. Independence is modelled as membership of the current root among its keys, and those keys keep insertion order for the runtime-chunk rule. The JavaScript ordering of integer-like keys first is not modelled.
- Placement.ResolveAgain: requires that the current package root is not literally `main`. For a subpackage rooted at `main`, whose name coincides with the main package, the first placement can create a claim in main that redirects the second placement to root `""`.
- Placement.IndependentKeepsOwnCopy: requires a root other than `main` for the same reason.
- BuildContext.Mpx.GetExtractedFile: when `typeExtMap[type]` is undefined, JavaScript appends the text `undefined` to the name. Here the extension is whatever `typeExt` returns.
- The entry graph's traversal and size analysis happen outside this file and are not part of this model. Only node creation, typing, module mapping and edges are modelled.
- Two behaviours are modelled as written rather than flagged as defects:
  - a `componentsMap` entry recorded as `true` yields the file name `"true"` plus the extension;
  - an audit run from the main package names `main` as the second package in its warnings.

## Findings

| source | as written | input that shows it | evidently intended | confidence | as-written member | corrected member |
|---|---|---|---|---|---|---|
| packages/webpack-plugin/lib/index.js:52-54 | The package name is spliced into `new RegExp(`^${packageName}\/`)` without escaping, so a `.` in a package root matches any character. | Package root `sub.a` and chunk `subXa/pages/index`: the test returns true. The chunk then counts as part of `sub.a` for the cache group and the runtime chunk. | The chunk name starts with the literal package name followed by `/`. | not executed | Chunks.IsChunkInPackageAsWritten, shown by Chunks.DottedPackageClaimsForeignChunk | Chunks.IsChunkInPackage, used by Chunks.GetPackageCacheGroup and Chunks.RuntimeChunkName, with Chunks.LiteralTestRefinesAsWritten |
