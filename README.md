# Matcha route identity and props contract, in Dafny

Matcha is a small hybrid static/server rendering pipeline built around Vite
and React. Three places have to agree on what a route is and which props it
renders with:

- the client router (`src/router.tsx`), which matches paths, fetches
  per-route `_props.json` files and replays browser history;
- the build step (`closeBundle` in `lib/plugin.ts`), which writes every
  route's static props and pre-renders the routes that have no
  `getServerSideProps`, together with the request-time module it emits
  (`ssr-function.js`);
- the development server (`lib/commands/dev.ts`), with its props endpoint
  and its page handler.

This project models that contract and proves properties of it.

- Pure parts are functions with contracts: path normalisation, first-match
  routing, the SSR manifest, props URLs and artifact paths, the props merge,
  page assembly, and the request-time and dev handlers.
- The router's mutable state is the class `Router.ClientRouter`. Its methods
  follow the steps of `navigate` and of the `popstate` handler.
- The build loop is the method `SiteGenerator.CloseBundle`. It writes into a
  `FileSystem` object holding a map from path to content, and is proved
  against the specification function `SiteGenerator.Generate`.

Loaders, the React renderer, `JSON.stringify`/`JSON.parse`, `new URL(...).pathname`
and the network are parameters of the model. Node's `path.resolve` is
modelled in `Paths`: segments are split on `/`, empty and `.` segments
vanish, and `..` drops the last kept segment without climbing above the root. Loaders and the renderer are
functions returning `Result`, where a failure stands for a thrown exception.
The network is a function from URL to response.

Modules: `Wrappers`, `Text` (search and first-occurrence replacement),
`Values` (props and merge), `Routes`, `Paths` (`path.resolve`), `Pages`, `JsReplace`, `Router`,
`SiteGenerator`, `SsrRuntime`, `DevServer`, `Agreement` (cross-file lemmas).

Where the code and the design description disagree, the model follows the
code:

- The router has no last-navigation-wins ordering. Its fetches are not
  tagged, so an earlier navigation whose fetch resolves last wins.
  `Router.StaleNavigationWins` shows this.
- The build does not tag failures with the route or loader kind. An
  exception just propagates out of the loop, and the files written before it
  stay in place (no fail-fast cleanup).
- Loaders' `{ props: ... }` wrapped return shape is never unwrapped.
- The history state the router pushes is `{ props }`. It is stored under the
  URL as given, not under a normalised path.
- The client router never reads the embedded SSR manifest. It never calls the
  dev server's `/__matcha_props` endpoint either: it always fetches
  `<path>/_props.json`.

## Model

| member | source | states |
|---|---|---|
| `Routes.Normalize` | src/router.tsx:124-127 | The result is a prefix of the input that is at most one character shorter. It is shorter exactly when the input is not `/` and ends in `/`. The emitted request-time module's `normalizePath` (lib/plugin.ts:77-79) is this same function. |
| `Routes.NormalizeIdempotence` | src/router.tsx:124-127 | Normalising twice equals normalising once, except for paths of length three or more that end in `//`. |
| `Routes.NormalizeNotIdempotentExample` | src/router.tsx:126 | `/a//` normalises to `/a/`, and that normalises again to `/a`. |
| `Routes.MatchRoute` | src/router.tsx:129-132 | There is no match exactly when no route's path equals the normalised input. Otherwise the result is the route at the first index whose path equals the normalised input. It never fails. |
| `Routes.MatchIgnoresTrailingSlash` | src/router.tsx:129-132 | For a non-empty path not ending in `/`, matching `p + "/"` gives the same result as matching `p`. |
| `Routes.SsrRoutes` | lib/plugin.ts:56-58 | A path is in the manifest exactly when some route with a truthy `getServerSideProps` has that path. The manifest is no longer than the table. |
| `Routes.SsrRoutesAppend` | lib/plugin.ts:56-58 | The manifest of a concatenated table is the concatenation of the manifests, so table order is kept. |
| `Values.Merge` | lib/plugin.ts:106 | The merged props have the keys of both sides. Override values win on a collision, and every other base key keeps its value. This is the same spread merge as lib/plugin.ts:120 and lib/commands/dev.ts:31-34. |
| `Values.MergeWithEmpty` | lib/plugin.ts:116-121 | An empty side (a missing artifact or an absent loader) leaves the other side unchanged. |
| `Values.MergePrecedenceExample` | lib/plugin.ts:106 | `{a:1,b:2}` merged with `{b:3,c:4}` is `{a:1,b:3,c:4}`. |
| `Text.IndexOfFrom` | lib/plugin.ts:112 | The scan finds the first occurrence at or after the start index, or proves there is none. |
| `Text.ReplaceFirst` | lib/plugin.ts:111-113 | A string without the pattern is unchanged. Otherwise only the first occurrence is replaced. |
| `Pages.PropsScript` | lib/plugin.ts:143 | The props tag: the serialised props assigned to `window.__INITIAL_PROPS__` inside a script element. |
| `Pages.RoutesScript` | lib/plugin.ts:60 | The manifest tag: the serialised manifest assigned to `window.__MATCHA_SSR_ROUTES__` inside a script element. |
| `Pages.AssemblePage` | lib/plugin.ts:144-146 | The intended page: the first outlet marker replaced by the markup, then the first `</head>` preceded by the scripts, both inserted verbatim. Its contracts are `AssemblePageLayout` and `AssembleWithoutMarkers`. |
| `Pages.AssemblePageLayout` | lib/plugin.ts:143-146 | Take a template whose first `</head>` comes before its first outlet marker. The page is the template with the scripts inserted before that `</head>` and the app markup in place of that marker. Everything else is kept in order. |
| `Pages.AssembleWithoutMarkers` | lib/plugin.ts:111-113 | A template with neither marker comes out unchanged. |
| `JsReplace.Substitution` | lib/plugin.ts:145 | JavaScript's expansion of a replacement string: `$$`, `$&`, dollar-backtick and `$'` are rewritten, everything else is kept. `SubstitutionWithoutDollar` is its contract. |
| `JsReplace.WrittenReplaceFirst` | lib/plugin.ts:145 | `s.replace(pat, repl)` as JavaScript evaluates it: the first occurrence is replaced by the expansion. `WrittenReplaceAgreesWithoutDollar` relates it to `ReplaceFirst`. |
| `JsReplace.WrittenAssemblePage` | lib/plugin.ts:144-146 | The page assembly as written. `WrittenAssemblyAgreesWithoutDollar` and `DollarInAppHtmlMangled` relate it to `AssemblePage`. |
| `JsReplace.SubstitutionWithoutDollar` | lib/plugin.ts:112 | JavaScript's expansion of a replacement string without `$` is the string itself. |
| `JsReplace.WrittenReplaceAgreesWithoutDollar` | lib/plugin.ts:112 | Without `$` in the replacement, `String.replace` as written equals the verbatim first-occurrence replacement. |
| `JsReplace.WrittenAssemblyAgreesWithoutDollar` | lib/commands/dev.ts:74-76 | When the markup and the scripts contain no `$`, page assembly as written gives the intended page. |
| `JsReplace.DollarInAppHtmlMangled` | lib/plugin.ts:144-146 | Counterexample: app markup `$&` in the template `<!--ssr-outlet-->` yields the marker again as written, but `$&` as intended. |
| `Router.PropsUrl` | src/router.tsx:37 | The props URL is `/_props.json` for `/`. For any other path it is the path followed by `/_props.json`. |
| `Router.FetchRouteProps` | src/router.tsx:36-47 | The result is the parsed body of an ok response to the route's props URL. A response that is not ok, a body that does not parse, or a fetch that throws gives `{}`. |
| `Router.FetchReadsOnlyPropsUrl` | src/router.tsx:37-39 | Two networks that answer the props URL alike yield the same props. |
| `Router.RenderView` | src/router.tsx:86-96 | 404 exactly when no route matches, whatever `isLoading` is. Loading exactly when a route matches and `isLoading` holds. Otherwise the matched route's component with the current props. |
| `Router.ClientRouter.constructor` | src/router.tsx:49-52 | The initial state is `path = initialPath`, `props = initialProps` (or `{}` when absent) and `isLoading = false`. The landing entry carries no history state. |
| `Router.ClientRouter.View` | src/router.tsx:86-88 | The rendered view is 404 exactly when the current path has no matching route. |
| `Router.ClientRouter.StartNavigate` | src/router.tsx:54-57 | Before the fetch, `isLoading` becomes true and nothing else changes. |
| `Router.ClientRouter.FinishNavigate` | src/router.tsx:58-63 | One history entry is pushed: the fetched props under the un-normalised URL. Forward entries are dropped. Then `path` is the normalised target, `props` the fetched props, and `isLoading` is false. |
| `Router.ClientRouter.Navigate` | src/router.tsx:54-64 | A whole navigation ends in the state above. Entries up to the current one, including the previous page's stored props, are kept. |
| `Router.ClientRouter.Go` | src/router.tsx:82 | The browser's history traversal moves the cursor only to an existing entry, and signals the `popstate` event the router listens to. |
| `Router.ClientRouter.BeginPopState` | src/router.tsx:68-76 | `path` becomes the normalised URL of the current entry. Stored props are reused with no fetch. Only without stored props does `isLoading` become true. |
| `Router.ClientRouter.FinishPopState` | src/router.tsx:77-79 | `props` become the props fetched for the popped path, and `isLoading` becomes false. |
| `Router.ClientRouter.PopState` | src/router.tsx:68-81 | A whole `popstate` either restores the stored props or ends with fetched props and `isLoading` false. History is unchanged. |
| `Router.BackForwardReplay` | src/router.tsx:54-81 | Load a page, navigate, then go back: the landing page's props are refetched. Going forward again restores the navigation's props without using the network. |
| `Router.StaleNavigationWins` | src/router.tsx:54-64 | Two overlapping navigations are not ordered. If the earlier one resolves last, the router ends on it, and loading already ended in between. |
| `Paths.Resolve` | lib/plugin.ts:131 | `path.resolve`: the arguments from the last absolute one on, joined with `/`, split into segments, normalised and joined under a leading `/`. Its properties are the `Paths` lemmas below. |
| `Paths.SplitRoundTrip` | lib/plugin.ts:131 | Joining the segments of a split with `/` gives the string back. |
| `Paths.ResolvePlain` | lib/plugin.ts:131 | For a plain absolute directory (no empty, `.` or `..` segment, no trailing `/`) and a plain relative path, `resolve(dir, rel)` is `dir + "/" + rel`, again plain absolute. |
| `Paths.ResolveName` | lib/plugin.ts:134 | `resolve(dir, name)` for a file name always ends in `/` and the name. For a plain absolute directory it is exactly `dir + "/" + name`. |
| `Paths.ResolveNested` | lib/plugin.ts:87 | `resolve(resolve(a, b), c)` equals `resolve(a, b, c)` for any `a`, `b` and relative `c`. |
| `Paths.ResolveIgnoresTrailingSlash` | lib/plugin.ts:131 | A trailing `/` on the relative argument does not change the result. |
| `Paths.ResolveUp` | lib/plugin.ts:74 | `resolve(resolve(dir, 'a/b'), '../c')` is `resolve(dir, 'a/c')` for ordinary segments. |
| `Paths.ResolveDot` | lib/plugin.ts:73 | `resolve(dir, './name')` is `resolve(dir, name)`. |
| `Paths.FileIn` | lib/plugin.ts:134 | `resolve(dir, name)` for a file name names a file called `name`. |
| `Paths.JoinInjective` | lib/plugin.ts:134 | Two directories joined with the same name give the same path only if the directories are equal. |
| `Paths.LastCharsDiffer` | lib/plugin.ts:134 | Files whose names end in different characters are different paths. |
| `Paths.LongerNameDiffers` | lib/plugin.ts:63 | A file with a longer name and no `/` where the shorter name's `/` would fall is not that shorter-named file. |
| `SiteGenerator.RouteDir` | lib/plugin.ts:129-131 | The route directory: `distDir` for `/`, otherwise `resolve(distDir, path.slice(1))`. Its contract is `RouteDirPlain`. |
| `SiteGenerator.RouteDirPlain` | lib/plugin.ts:129-131 | For a plain output directory and a canonical route path (`/` or plain absolute), the route directory is `distDir` followed by the path, and it is plain. |
| `SiteGenerator.PropsPath` | lib/plugin.ts:134 | The props artifact path always names a `_props.json` file. |
| `SiteGenerator.HtmlPath` | lib/plugin.ts:148 | The page path always names an `index.html` file. |
| `SiteGenerator.ArtifactPathsPlain` | lib/plugin.ts:129-134 | For a plain output directory and a canonical route path, both artifact paths are the route directory, `/` and the file name. |
| `SiteGenerator.RouteDirInjective` | lib/plugin.ts:129-131 | Distinct canonical route paths have distinct artifact directories. |
| `SiteGenerator.ArtifactPathsInjective` | lib/plugin.ts:129-148 | Distinct canonical route paths have distinct props artifacts and distinct pages. |
| `SiteGenerator.TrailingSlashRoutesCollide` | lib/plugin.ts:129-148 | Without canonical paths the artifacts collide: `/a/` and `/a` get the same route directory, props path and page path. |
| `SiteGenerator.PropsPathIsNotHtmlPath` | lib/plugin.ts:134-148 | A props artifact path is never a page path, whatever the directories. |
| `SiteGenerator.FileSystem.ReadFile` | lib/plugin.ts:62 | The content is returned exactly when the file exists. A missing file gives none, which the caller turns into a rejection. |
| `SiteGenerator.FileSystem.WriteFile` | lib/plugin.ts:64 | The file is created or replaced with the content, and no other file changes. |
| `SiteGenerator.Step` | lib/plugin.ts:127-153 | One loop iteration: write the static props, skip manifest routes, otherwise render and write the page and count it; after an exception nothing happens. `BuildRoute` is proved against it. |
| `SiteGenerator.BuildRoute` | lib/plugin.ts:128-151 | One iteration performed on the file system gives exactly the files, count and exception of `Step`. |
| `SiteGenerator.Generate` | lib/plugin.ts:127-153 | The route loop in table order. Its properties are the lemmas below and the contract of `CloseBundle`. |
| `SiteGenerator.StaticRoutes` | lib/plugin.ts:137-151 | The routes that get a page, in table order. `RenderedCountIsStaticRoutes` relates it to the loop. |
| `SiteGenerator.GenerateStaysFailed` | lib/plugin.ts:127-153 | After an exception, the remaining routes do nothing. |
| `SiteGenerator.GenerateSucceedsIff` | lib/plugin.ts:127-153 | The loop completes exactly when every route's static loader returns and every route outside the manifest renders. |
| `SiteGenerator.UntouchedFile` | lib/plugin.ts:127-153 | A file that no route writes keeps its presence and content, whether or not the loop completes. |
| `SiteGenerator.KeptFile` | lib/plugin.ts:127-153 | A file whose every writer writes the content it already has keeps that content. |
| `SiteGenerator.PropsArtifactWritten` | lib/plugin.ts:128-135 | For a canonical table and a plain output directory, after a completed loop every route, SSR or not, has its `_props.json`, holding exactly its static props. |
| `SiteGenerator.PageArtifactWritten` | lib/plugin.ts:142-149 | For a canonical table and a plain output directory, after a completed loop every route outside the manifest has `index.html`: the template with the rendered markup, the props script and the manifest script. |
| `SiteGenerator.SsrRouteGetsNoPage` | lib/plugin.ts:137-140 | For a canonical table and a plain output directory, a route in the manifest gets no `index.html`: its page path stays as it was before the loop. |
| `SiteGenerator.RenderedCountIsStaticRoutes` | lib/plugin.ts:126-155 | `renderedCount` is the number of routes whose path is not in the manifest. |
| `SiteGenerator.TemplatePath` | lib/plugin.ts:61 | The template read is a file called `index.html`. |
| `SiteGenerator.SsrTemplatePath` | lib/plugin.ts:63 | The template copy is a file called `ssr-template.html`. |
| `SiteGenerator.SsrFunctionPath` | lib/plugin.ts:66 | The request-time module is a file called `ssr-function.js`. |
| `SiteGenerator.ServerFiles` | lib/plugin.ts:63-124 | Before the loop, the files are the old ones plus the template copy holding the template and the request-time module holding its code; every other file is unchanged. |
| `SiteGenerator.FileNamesDiffer` | lib/plugin.ts:63-148 | The template copy, the request-time module, a props artifact and a page are four different paths, wherever their directories are. |
| `SiteGenerator.ServerFilesSurviveLoop` | lib/plugin.ts:126-153 | The template copy and the request-time module leave the route loop as they entered it, whether or not it completes. |
| `SiteGenerator.CloseBundle` | lib/plugin.ts:56-153 | A missing template fails before any write. Otherwise the template copy and the request-time module are written, then the loop runs. The final files and the result (page count or exception) are those of `Generate` started from those two writes. |
| `SsrRuntime.IsSsrRouteIffServerSideProps` | lib/plugin.ts:81-83 | `isSsrRoute(p)` holds exactly when some route with `getServerSideProps` has the path `normalizePath(p)`. |
| `SsrRuntime.IsSsrRoute` | lib/plugin.ts:81-83 | A path renders at request time exactly when some manifest entry equals its normalised form. |
| `SsrRuntime.StaticPropsFilePath` | lib/plugin.ts:85-88 | The file read always names a `_props.json` file. `Agreement.RuntimeReadsBuildArtifact` gives its exact value. |
| `SsrRuntime.LoadCachedStaticProps` | lib/plugin.ts:90-97 | A missing or unparsable artifact gives `{}`. Otherwise the result is the parsed artifact. |
| `SsrRuntime.RenderRouteProps` | lib/plugin.ts:116-121 | It succeeds exactly when the server loader returns. The result is the cached static props with server props winning on a collision and every other static key kept. A loader exception propagates. |
| `SsrRuntime.RenderSsrPage` | lib/plugin.ts:99-114 | A missing template fails first, then a server-loader exception, then a render exception. Otherwise the page embeds exactly the props `renderRouteProps` returns, plus the build's manifest script. |
| `DevServer.RequestedPath` | lib/commands/dev.ts:20-21 | A string `path` query is used as given. A missing or non-string one becomes `/`. |
| `DevServer.PropsHandler` | lib/commands/dev.ts:19-48 | A path not starting with `/` gets 400 `Invalid path`. A URL that does not parse, then a static-loader exception, then a server-loader exception gets 500 with its message. Otherwise the answer is 200, no-store, with static props overridden by server props. |
| `DevServer.InvalidPathIgnoresLoaders` | lib/commands/dev.ts:23-26 | An invalid path gets 400 whatever the URL parser and the loaders are, so none of them affects the answer. |
| `DevServer.MissingPathIsRoot` | lib/commands/dev.ts:20-21 | A request without a string `path` is answered as a request for `/`, which is never rejected. |
| `DevServer.PageHandler` | lib/commands/dev.ts:50-84 | Status 200 exactly when the URL parses and the template and the render succeed. Otherwise 500 with the message of the first failing step: URL, then template, then render. The page uses the same assembly, with the manifest of the current route table. |
| `Agreement.PropsUrlNamesArtifact` | src/router.tsx:37 | Served from a plain output directory, the client's props URL for a canonical route path is exactly the build's `_props.json` (lib/plugin.ts:129-135). |
| `Agreement.RuntimeReadsBuildArtifact` | lib/plugin.ts:85-88 | For every request path, the file the request-time module reads is the props artifact the build writes for that path (lib/plugin.ts:129-134). |
| `Agreement.PublicRootIsOutputDir` | lib/plugin.ts:74 | The request-time public root, `../public` from `resolve(root, 'dist/server')` (lib/plugin.ts:30), is `resolve(root, 'dist/public')`: the build's output directory with the `outDir` of vite.config.ts:16. |
| `Agreement.RuntimeTemplateIsCopy` | lib/plugin.ts:73 | The template the request-time module reads is the copy the build wrote at lib/plugin.ts:63. |
| `Agreement.RuntimeSeesBuiltStaticProps` | lib/plugin.ts:90-97 | Assume a canonical table, a plain output directory, a completed build and a parse/serialise round trip. Then the cached static props for any request path that normalises to a route are that route's static props. |
| `Agreement.RuntimePageMatchesBuiltPage` | lib/plugin.ts:99-114 | Take a canonical table, output directories `dist/public` and `dist/server` under one root, and a route outside the manifest whose `render` is `renderWithProps` over static props overridden by server props. Rendering it at request time, with the template path and public root the request-time module computes, reproduces the pre-built `index.html`. |
| `Agreement.DevPageMatchesBuiltPage` | lib/commands/dev.ts:63-76 | Given the same template, renderer and serialiser, the dev page for a route outside the manifest is the page the build wrote. |
| `Agreement.DevPropsMatchRuntimeProps` | lib/commands/dev.ts:28-42 | After a completed build, the dev props endpoint and the request-time `renderRouteProps` return the same props for a normalised route path. |

## Findings

| source | as written | input that shows it | evidently intended | confidence | as-written member | corrected member |
|---|---|---|---|---|---|---|
| lib/plugin.ts:144-146 | The page is assembled with `String.prototype.replace`, which expands `$&`, `$$`, `$'` and dollar-backtick in the app markup and in the props script. The same code is at lib/plugin.ts:111-113 and lib/commands/dev.ts:74-76. | Template `<!--ssr-outlet-->`, app markup `$&`: the page is `<!--ssr-outlet-->`, and the markup is lost. | Markup and scripts are inserted verbatim. | high; not executed | `JsReplace.DollarInAppHtmlMangled` | `Pages.AssemblePageLayout` |

## Left out

- Vite's `build`, `ssrLoadModule` and `transformIndexHtml` are not modelled. Neither are esbuild, the removal of `dist/server`, the dynamic `import()` of the server entry, Express routing, `listen`, `ssrFixStacktrace` and console logging. The route table and the server entry's functions are parameters.
- The text of `ssr-function.js` is not generated. `CloseBundle` writes it as a given string, `ssrFunctionCode`. Its behaviour is the `SsrRuntime` module. Its embedded constants (the manifest and the manifest script) evaluate to the values the build computed, and are passed in as those values.
- React rendering is not modelled. `render` and `renderWithProps` are given functions, and a component is only an identity. `Link` and `useRouter` only forward to `navigate` and are not modelled separately.
- The page loaders and `src/routes.ts` are not modelled. The server entry's `loadStaticProps`, `loadServerSideProps`, `renderWithProps` and `routes` are parameters.
- `path.resolve` never consults `process.cwd()` here: every call starts from an absolute directory (Vite's `root`). Without one, the model resolves against `/`.
- SiteGenerator.RouteDirInjective, SiteGenerator.ArtifactPathsInjective: require canonical route paths (`/`, or `/`-separated segments with none empty, `.` or `..`, and no trailing `/`) and a plain output directory. For other tables the property is false: `TrailingSlashRoutesCollide` shows `/a` and `/a/` sharing their artifacts.
- SiteGenerator.PropsArtifactWritten, SiteGenerator.PageArtifactWritten, SiteGenerator.SsrRouteGetsNoPage: require a canonical route table for the same reason. In a table with `/a` and `/a/`, the later route overwrites the earlier one's files.
- Agreement.RuntimeSeesBuiltStaticProps, Agreement.DevPageMatchesBuiltPage, Agreement.DevPropsMatchRuntimeProps, Agreement.PropsUrlNamesArtifact: inherit the canonical-table requirement.
- `JSON.stringify` and `JSON.parse` are given functions. No round trip is claimed: the lemmas that need one take it as a precondition. Non-object JSON bodies and fractional numbers are not modelled.
- `new URL(...).pathname` in the dev server is a given function. It may fail with the `TypeError`'s message, which both handlers answer with 500. In the browser, the URL passed to `pushState` is taken as `location.pathname`, so query strings and fragments are not modelled.
- Headers other than `Cache-Control: no-store` are not modelled, such as the `Content-Type` Express sets.
- A failure of `ssrLoadModule` in the dev server is the same as a loader failure (props endpoint) or render failure (page handler). Reading and transforming the dev template is one input that may fail.
- Concurrency beyond the await points is not modelled. `navigate` and `popstate` are each split into a start step and a finish step, so callers can interleave them. `Promise.all` in `renderSsrPage` is sequential here, with the template read deciding the failure first.
- Browser history is an entry list with a cursor. `replaceState`, hash navigation and reloads are not modelled.
- The legacy single-page build (lib/build.ts, lib/commands/build.ts) and the CLI wrapper are not modelled.
- SiteGenerator.GenerateSucceedsIff: `mkdir` and `writeFile` never fail in the model, so "completes exactly when every loader and render returns" ignores file-system errors. Routes `/a` and `/a/index.html` make a real build fail: one route's directory is the other route's page file.
- SiteGenerator.CloseBundle: the same. A failing `mkdir` or `writeFile` (lib/plugin.ts:133-135,149), and a failing write of the two server files, are not modelled. The `mkdir` calls are not modelled either, because a map from path to content has no directories.
- SiteGenerator.PageArtifactWritten: the page is the intended assembly (`Pages.AssemblePage`, verbatim insertion). The code as written is `JsReplace.WrittenAssemblePage`. The two agree when the markup and the scripts contain no `$` (`JsReplace.WrittenAssemblyAgreesWithoutDollar`).
- SsrRuntime.RenderSsrPage: the same. It states the intended page, not the `$`-expanding one the code produces.
- DevServer.PageHandler: the same. It states the intended page, not the `$`-expanding one the code produces.
- Agreement.RuntimePageMatchesBuiltPage: the same. Both sides are the intended page, so the equality is of the intended pages.
- Agreement.RuntimePageMatchesBuiltPage: `Values.Props` is a map, so the key order that `JSON.stringify` writes is lost. The lemma takes `stringify` to depend only on the map. In the program, the request-time props come from a spread merge whose key order can differ from the build's `render` props, and the pages can then differ in the props script.
