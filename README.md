# render: helper preparation, maker registry and page handlers

A Dafny model of the core of the `render` package of ecletus, the layer a web application
uses to turn a named template and a data object into HTML. The model covers what the package
itself decides. The template engine (with layouts and `yield`) and the template parser live in
other packages and appear as parameters; the compiled-template cache is left out.

- **Function values** (`OrderedMaps`): an insertion-ordered set of named helper bindings.
  `Set` replaces a binding and keeps its place. `SetDefault` never clobbers a binding.
  `AppendValues`/`Append` merge other sets, the later set winning.
- **Function map maker registry** (`Render.Render`): insertion-ordered. A new name is appended;
  re-registering a name replaces its maker and keeps its position. The names stay duplicate-free and
  are exactly the registered keys.
- **Per-call helper preparation** (`Templates.Prepare`): strictly layered. First the
  renderer's own bindings, then the configured maker, then every registered maker in
  registration order (the first failure aborts), then the fixed `locale`, `prefix`,
  `local_url`, `local_static_url`, `static_url` and `url` bindings, then the call-site maps.
- **Template helpers bound by the built-in maker** (`RenderHelpers`): `current_locale`,
  `media_url`, `render_scripts`, `render_styles` and `form`, plus the `LANG`-derived default
  locale.
- **Page handlers** (`Handlers`): handler lists with an in-place and a copying append, and
  handler lists stashed in a request context.
- **Output discipline** (`Templates.RenderW`, `RenderTemplate`, `Execute`): errors are wrapped
  with the template name; output and the default `Content-Type` are written only on success.

Inputs the Go code reads from its surroundings are parameters: the `LANG` environment value,
the request's `locale` cookie, its URL builders, the asset store, the template parser, the
template engine, and the outcome the response writer reports for a write.

render.go's comments speak of a default "application" layout (render.go:23-24, 230, 240), but
`New` never applies the `DefaultLayout` constant, so `Template()` carries whatever the
configuration holds; the model follows the code (`Render.NewLeavesDefaultLayoutUnset`).

## Model

| member | source | states |
|---|---|---|
| `OrderedMaps.OrderedMap.Set` | render.go:262-270 | the name is bound to the new value and no other binding changes; a new name is appended to the order, a bound one keeps the order unchanged; duplicate-free keys stay so |
| `OrderedMaps.OrderedMap.SetDefault` | render.go:114-131 | an existing binding is never clobbered; an absent name is bound and appended; others unchanged |
| `OrderedMaps.OrderedMap.AppendValues` | template.go:40 | after the merge a name bound by the other set has the other set's value, every other name keeps its own; the existing order is a prefix of the new one |
| `OrderedMaps.OrderedMap.Append` | template.go:84 | merging several sets: each name has its binding from the last set that binds it, else its old binding |
| `Handlers.HandlerList.Append` | handlers.go:44-47 | the receiver becomes old list ++ handlers and that new list is returned |
| `Handlers.HandlerList.AppendCopy` | handlers.go:49-51 | returns receiver ++ handlers (prefix is the receiver, suffix the handlers) and does not modify the receiver |
| `Handlers.GetFormHandlers` | handlers.go:30-35 | a context without form handlers yields the empty list; otherwise the stored list |
| `Handlers.GetScriptHandlers` | handlers.go:63-68 | a context without script handlers yields the empty list; otherwise the stored list |
| `Handlers.GetStyleHandlers` | handlers.go:96-101 | a context without style handlers yields the empty list; otherwise the stored list |
| `Handlers.AddFormHandler` | handlers.go:20-28 | getting form handlers from the new context gives the old ones followed by the added ones; other keys unchanged |
| `Handlers.AddStyleHandler` | handlers.go:86-94 | getting style handlers from the new context gives the old ones followed by the added ones; other keys unchanged |
| `Handlers.AddScriptHandlerAsWritten` | handlers.go:53-61 | as written: the extended script list is stored under the form key; every other key unchanged |
| `Handlers.AddScriptHandlerAsWrittenLosesHandlers` | handlers.go:53-61 | as written, added script handlers are never seen by `GetScriptHandlers`, and the form entry no longer holds form handlers |
| `Handlers.AddScriptHandler` | handlers.go:53-61 | corrected: getting script handlers gives the old ones followed by the added ones; other keys unchanged |
| `Handlers.AddHandlersCompose` | handlers.go:20-101 | with the corrected `AddScriptHandler`: adding handlers of one kind leaves the other kinds' lists alone, and adding twice adds the concatenation |
| `RenderHelpers.BeforeFirstDot` | render.go:29 | the result has no '.', is a prefix of the input, and is followed in the input by '.' unless it is the whole input |
| `RenderHelpers.DefaultLocale` | render.go:26-32 | empty for an empty `LANG`; otherwise the text before the first '.', which contains no '.' |
| `RenderHelpers.DefaultLocaleUnique` | render.go:26-32 | any dot-free prefix of `LANG` that ends at the end or at a '.' is the default locale, so the contract determines the result |
| `RenderHelpers.DefaultLocaleIdempotent` | render.go:29 | a value without '.' is its own default locale; applying it twice equals applying it once |
| `RenderHelpers.DefaultLocaleExample` | render.go:29 | `pt_BR.UTF-8` gives `pt_BR`; `C` gives `C` |
| `RenderHelpers.CurrentLocale` | render.go:118-123 | the `locale` cookie's value when the request has that cookie, otherwise the configured default locale |
| `RenderHelpers.MediaStorageName` | render.go:199-201 | the storage is "default" when no name is given, else the last name given |
| `RenderHelpers.MediaUrl` | render.go:198-203 | the request's media URL for the path in that storage |
| `RenderHelpers.EmittedStopsAtFirstFailure` | render.go:154-159 | in one handler list, the first failing handler ends the list: output is the preceding handlers' output, its own output, then its marker, whatever follows |
| `RenderHelpers.EmittedWithoutFailure` | render.go:154-159 | a list with no failure writes every handler's output in order |
| `RenderHelpers.Marker` | render.go:153-177 | the script/style failure marker starts `[[render execute <kind> handler `, names the handler, then carries "` failed: " and the handler's error, and ends with `]]` |
| `RenderHelpers.RunHandlerList` | render.go:154-159 | one list runs into the buffer up to and including its first failing handler, whose output is followed by its marker |
| `RenderHelpers.RunWriterHandlers` | render.go:153-160 | the lists run in order into one buffer, each stopping at its own first failure, the next list still running |
| `RenderHelpers.RenderScripts` | render.go:147-162 | output is the renderer's script list's output followed by the context's, each with the `script handler` marker on failure |
| `RenderHelpers.RenderStyles` | render.go:164-179 | output is the renderer's style list's output followed by the context's, each with the `style handler` marker on failure |
| `RenderHelpers.RunForms` | render.go:185-189 | handlers that succeed on every state make the run succeed; a failure names one of the handlers and carries that handler's error |
| `RenderHelpers.FormMarker` | render.go:187 | the form failure marker starts `[[render execute form handler `, names the handler and then the form, then carries "` form failed: " and the handler's error, and ends with `]]` |
| `RenderHelpers.RunFormsAppend` | render.go:185 | running renderer ++ context form handlers is running the renderer's, then, only if they all succeed, the context's |
| `RenderHelpers.Form` | render.go:181-191 | the final form body when every handler succeeds; otherwise only the first failure's marker, naming the handler and the form |
| `RenderHelpers.FormRendererFailureSkipsContext` | render.go:185-189 | when a renderer form handler fails, the result does not depend on the context's handlers |
| `Render.NewConfig` | render.go:102-109 | nil becomes `Config{}`; an empty default locale is filled from `LANG`; nothing else changes |
| `Render.NewConfigDefaults` | render.go:103-109 | `New(nil)` configures as `New(&Config{})`; a non-empty locale is kept; a filled-in locale has no '.' |
| `Render.NewLeavesDefaultLayoutUnset` | render.go:102-109 | a renderer made from nil or `Config{}` has an empty default layout, not `"application"` |
| `Render.CurrentLocaleFallsBackToEnvironment` | render.go:107-123 | without a cookie, on a renderer whose configuration left the locale empty, `current_locale` is `LANG` up to its first '.' |
| `Render.SetDefaults` | render.go:114-131 | each listed name gets its built-in helper only if it was unbound; every other binding is unchanged |
| `Render.QorContextMaker` | render.go:113-205 | the built-in maker never fails and keeps the duplicate-free invariant |
| `Render.QorContextMakerTranslates` | render.go:135-141 | `t` and `tt` are bound unconditionally to the built-in helpers |
| `Render.QorContextMakerDefaults` | render.go:114-203 | `qor_context`, `current_locale`, `flashes`, `about`, `errors`, `render_scripts`, `render_styles`, `form`, `must_config_get`, `media_url` keep an existing binding, else get the built-in one |
| `Render.QorContextMakerKeepsOthers` | render.go:113-205 | every other name keeps its binding |
| `Render.Render.New` | render.go:102-216 | the configuration is the defaulted one; the registry holds exactly `qor_context`; the renderer's bindings are `raw` then `genid` |
| `Render.Render.RegisterFuncMapMaker` | render.go:262-270 | a new name is appended to the names and bound; an existing name is rebound with the names unchanged; the registry invariant is kept |
| `Render.Render.RegisterFuncMap` | render.go:254-259 | the renderer's bindings get the helper under the name; nothing else changes |
| `Render.NewTemplate` | template.go:31-36 | a template with every field at its zero value: no layout, default layout not in use, no debug output, no function values of its own |
| `Render.Render.Template` | render.go:245-251 | a fresh template using the default layout, with the configuration's default layout and debug flag |
| `Render.Render.Layout` | render.go:224-228 | the same template with the given layout |
| `Render.RegisterAllValid` | render.go:263-269 | after any sequence of registrations the names are duplicate-free and are exactly the keys |
| `Render.RegisterAllOrder` | render.go:266-267 | the names are the registered names in order of first registration, and the keys are exactly the registered names |
| `Render.RegisterAllLastWins` | render.go:269 | each name holds the maker registered last under it |
| `Templates.BindFixed` | template.go:57-82 | the six fixed names are bound to the built-in helpers whatever was bound before; other names unchanged |
| `Templates.Prepare` | template.go:39-85 | the result is the layered preparation: renderer bindings, configured maker, registered makers in order with early return on error, fixed bindings, call-site maps |
| `Templates.MakerErrorStopsRun` | template.go:49-55 | the first failing maker's error is the outcome; the makers after it do not influence it |
| `Templates.RunMakersKeeps` | template.go:49-55 | a run of makers that all keep a binding keeps it |
| `Templates.LaterMakerWins` | template.go:49-55 | when a maker binds a name and every later maker keeps it, its binding is the final one (registration order decides) |
| `Templates.PrepareLayers` | template.go:57-84 | a name bound by a call-site map has the last such binding; otherwise a fixed name has its built-in helper, overriding any maker |
| `Templates.PrepareKeepsRendererFuncs` | template.go:40-55 | the renderer's own binding survives when no maker, fixed binding or call-site map touches the name |
| `Templates.RunMakers` | template.go:49-55 | makers that succeed on every input make the run succeed; a failed run's error is the error of one of the named makers |
| `Templates.PrepareConfiguredMakerFailure` | template.go:42-47 | a failure of the configured maker is the outcome of preparation; no registered maker runs and no fixed binding is added |
| `Templates.PrepareRegisteredMakerBinding` | template.go:49-84 | a binding made by a registered maker and kept by every maker registered after it is the prepared binding, unless a fixed binding or a call-site map touches the name |
| `Templates.PrepareConfiguredMakerBinding` | template.go:42-84 | the configured maker runs below the registered ones: its binding, kept by every registered maker, is the prepared binding, unless a fixed binding or a call-site map touches the name |
| `Templates.PrepareMakerFailure` | template.go:42-54 | a registered maker's failure, after the configured maker succeeded, is the outcome of preparation; no fixed binding is added |
| `Templates.LocalSegments` | template.go:63-80 | with an empty prefix the segments are passed unchanged; otherwise the prefix comes first, then the segments |
| `Templates.LocalUrl` | template.go:63-71 | with an empty prefix `local_url` equals `url`; otherwise it is `url` applied to prefix ++ segments |
| `Templates.LocalStaticUrl` | template.go:72-81 | with an empty prefix `local_static_url` equals `static_url`; otherwise it is `static_url` applied to prefix ++ segments |
| `Templates.AssetName` | template.go:126-128 | the asset key is the template name followed by `.tmpl` |
| `Templates.AssetNameInjective` | template.go:126-128 | different templates are looked up under different assets |
| `Templates.GetExecutor` | template.go:130-155 | a lookup failure gives a find error naming the template; an executor results exactly when lookup, read and parse all succeed |
| `Templates.LookupFailureNeverParses` | template.go:132-139 | when lookup fails the parser is never consulted: the outcome is the same for any parser |
| `Templates.GetExecutorUsesOnlyItsAsset` | template.go:132-147 | only the `.tmpl` asset is consulted; a parse failure gives a parse error and no executor, a success exactly the parser's executor |
| `Templates.SetLayout` | template.go:157-160 | a copy differing from the receiver only in its layout |
| `Templates.SetFuncValues` | template.go:162-165 | a copy whose function values have the given sets merged in, later sets winning; nothing else differs |
| `Templates.SetFuncs` | template.go:167-170 | a copy whose call-site maps are the old ones followed by the given ones; nothing else differs |
| `Templates.LayoutIsTemplateWithLayout` | render.go:224-228 | `Layout(name)` is `Template()` with its layout set to `name` |
| `Templates.RenderOutcome` | template.go:88-101 | a preparation failure is returned wrapped with the template name; after successful preparation the engine runs on the template with the prepared values merged into its own, its failure is returned wrapped with the template name and its success is the output |
| `Templates.RenderW` | template.go:88-101 | computes the render outcome: preparation failures and engine failures are returned wrapped with the template name |
| `Templates.RenderTemplate` | template.go:104-110 | markup is returned only when `RenderW` succeeds; on failure the markup is empty and the wrapped error is returned |
| `Templates.WithDefaultContentType` | template.go:117-119 | `Content-Type` becomes `text/html` only if it was empty or unset; a set one is kept; other headers unchanged |
| `Templates.Execute` | template.go:113-124 | on a render failure nothing is written and headers are untouched; on success the default content type is applied and the whole markup is written once; the writer's error is returned |
| `Templates.ExecuteDefault` | render.go:241-243 | `Render.Execute` on the renderer's default template: a render failure writes nothing and leaves headers untouched; success applies the default content type, writes the markup once and returns the writer's error |

## Left out

- The compiled-template cache (`cache.Cache.LoadOrStore`) and its single compilation per name: an external library whose point is concurrency; `GetExecutor` models the loader handed to it.
- Template parsing and execution, layout selection and fallback, and `yield`/`require`/`include`: they live in the external template engine, which is the `Engine` and `Parser` parameters here.
- The asset file system (`Render.Asset`, `SetAssetFS`, `assetfs.DataS`): the store is a function parameter giving an asset or an error.
- `Context` (render.go:88-99): a type switch over external context types.
- The values of the fixed `locale` and `prefix` helpers (the request's locale, and "") and the helpers `qor_context`, `flashes`, `about`, `t`, `tt`, `errors`, `must_config_get`, `raw` and `genid`: they call the session store, the i18n catalog, the HTML sanitizer and the ID generator. They are bound under their names as built-in helpers, and their bodies are not modelled.
- Logging of resolved template paths under `DebugFiles`, and the exact text of wrapped errors: errors are tags carrying the template name and the cause.
- The `Funcs`/`FuncsPtr` getters and the `PageHandlers` pointer accessors (render.go:52-62, 231-238): plain field accessors.
- Makers receive the values and the request only; the `*Render` argument Go also passes them is left out. The built-in maker reads the renderer's page handler lists through that argument (render.go:153, 170, 185); the model passes those lists to `RenderScripts`, `RenderStyles` and `Form` as parameters.
- Templates.Prepare: the error `values.Append(this.Funcs...)` can return when merging the call-site maps (template.go:84) is not modelled; once every maker succeeds, preparation succeeds.
- Templates.RenderW: Go passes the caller's writer to the engine (template.go:100), so a failing engine may already have written part of its output into it; the model's `Engine` returns all of its output or none.
- `template.FuncValues` is an external type: `Set` is modelled as total (the Go code panics if `RegisterFuncMap`'s `Set` fails), `values.Start()` as starting from the empty set, and a `FuncMap` (a Go map with random iteration order) as an ordered set, so the order of new names from one map is fixed here.
- `AppendCopy` may share the receiver's backing array in Go; slices are values here, so that aliasing is not captured.
- `New` writes the defaulted locale through the caller's `*Config`; the configuration is a value here, so the caller's copy is not updated.
- The `form` helper's `s.Exec(name, pipes...)` is the template engine: its result is the `body` parameter.
- Script and style handlers, for the one state and request of a call, are what they write and the error they return; the template state and the writer are not modelled.
- `Get*Handlers`, `AddFormHandler`, `AddStyleHandler` and `AddScriptHandler` on a context entry holding another kind of list would fail a type assertion in Go (a panic). Preconditions exclude that case (`Handlers.FormsFit`, `Handlers.ScriptsFit`, `Handlers.StylesFit`).
- Handlers.AddFormHandler: Go's distinction between `[]*FormHandler` and the named `FormHandlers` type is not modelled. `AddFormHandler` stores a plain `[]*FormHandler` (handlers.go:23), so in Go `GetFormHandlers` (handlers.go:32) and a second `AddFormHandler` (handlers.go:25) panic on any context it has written to. `AddStyleHandler` does the same (handlers.go:89, 91, 98). The Get-after-Add contracts of `AddFormHandler`, `AddStyleHandler` and `AddScriptHandler` therefore state the intended behaviour, not that of the code as written.
- The response writer's own behaviour is external: its error for a write is the `writeOutcome` parameter.

## Findings

| source | as written | input that shows it | evidently intended | confidence | as-written member | corrected member |
|---|---|---|---|---|---|---|
| handlers.go:53-61 | `AddScriptHandler` reads the script entry but stores the extended list under `contextFormHandlersKey` | any context and one script handler `h`: `GetScriptHandlers` of the result is unchanged (`h` is lost) and the form entry now holds script handlers | store under `contextScriptHandlersKey`, as `AddFormHandler` and `AddStyleHandler` do | high; not executed | `Handlers.AddScriptHandlerAsWrittenLosesHandlers` | `Handlers.AddScriptHandler` |
