/** The template side of the renderer (template.go): preparing the function values for one
    render in strict layers, the URL helpers bound there, where a template's source is looked
    up, loading an executor, and the discipline of `RenderW`, `Render` and `Execute` about
    errors and output. */
module Templates {
  import opened Wrappers
  import opened OrderedMaps
  import opened Render

  /** Names `prepare` binds after every maker has run. */
  const FixedNames: seq<string> := ["locale", "prefix", "local_url", "local_static_url", "static_url", "url"]

  /** The fixed bindings: each name of `FixedNames` to its built-in helper, overriding
      whatever the makers bound under it. */
  function BindFixed(values: FuncValues): (r: FuncValues)
    ensures forall n :: n in FixedNames ==> r.Get(n) == Some(Builtin(n))
    ensures forall n :: n !in FixedNames ==> r.Get(n) == values.Get(n)
    ensures values.Valid() ==> r.Valid()
  {
    values
      .Set("locale", Builtin("locale"))
      .Set("prefix", Builtin("prefix"))
      .Set("local_url", Builtin("local_url"))
      .Set("local_static_url", Builtin("local_static_url"))
      .Set("static_url", Builtin("static_url"))
      .Set("url", Builtin("url"))
  }

  /** Runs the makers registered under `names`, in order, each on the values the previous one
      produced; the first failure is the outcome. */
  function RunMakers(values: FuncValues, names: seq<string>, m: map<string, FuncMapMaker>, ctx: Request)
    : (r: Result<FuncValues, string>)
    requires forall n :: n in names ==> n in m
    ensures (forall i, v :: 0 <= i < |names| ==> m[names[i]](v, ctx).Ok?) ==> r.Ok?
    ensures r.Err? ==> exists i, v :: 0 <= i < |names| && m[names[i]](v, ctx) == Err(r.error)
    decreases |names|
  {
    if names == [] then Ok(values)
    else match m[names[0]](values, ctx)
      case Err(e) => Err(e)
      case Ok(next) => RunMakers(next, names[1..], m, ctx)
  }

  /** What `prepare` yields for a renderer with helper bindings `funcs`, configured maker
      `configMaker` and registry `makers`, and a template with call-site maps `callFuncs`. */
  function Prepared(funcs: FuncValues, configMaker: Option<FuncMapMaker>, makers: FuncMapMakers,
                    callFuncs: seq<FuncValues>, ctx: Request): Result<FuncValues, string>
    requires forall n :: n in makers.keys ==> n in makers.vals
  {
    var base := Empty<Helper>().AppendValues(funcs);
    var configured :- if configMaker.Some? then configMaker.value(base, ctx) else Ok(base);
    var made :- RunMakers(configured, makers.keys, makers.vals, ctx);
    Ok(BindFixed(made).Append(callFuncs))
  }

  /** `prepare`: builds the function values for one render of template `t` by renderer `r`. */
  method Prepare(r: Render, t: Template, ctx: Request) returns (res: Result<FuncValues, string>)
    requires r.Valid()
    ensures res == Prepared(r.funcs, r.config.funcMapMaker, r.Makers(), t.funcs, ctx)
  {
    var values := Empty<Helper>();
    values := values.AppendValues(r.funcs);
    if r.config.funcMapMaker.Some? {
      var out := r.config.funcMapMaker.value(values, ctx);
      if out.Err? {
        return Err(out.error);
      }
      values := out.value;
    }
    ghost var configured := values;
    var names := r.names;
    for i := 0 to |names|
      invariant RunMakers(configured, names, r.m, ctx) == RunMakers(values, names[i..], r.m, ctx)
    {
      assert names[i] in names;
      assert names[i..][1..] == names[i + 1..];
      var fm := r.m[names[i]];
      var out := fm(values, ctx);
      if out.Err? {
        return Err(out.error);
      }
      values := out.value;
    }
    values := values.Set("locale", Builtin("locale"));
    values := values.Set("prefix", Builtin("prefix"));
    values := values.Set("local_url", Builtin("local_url"));
    values := values.Set("local_static_url", Builtin("local_static_url"));
    values := values.Set("static_url", Builtin("static_url"));
    values := values.Set("url", Builtin("url"));
    res := Ok(values.Append(t.funcs));
  }

  /** A maker that keeps the binding of `x` whenever it succeeds. */
  ghost predicate Keeps(mk: FuncMapMaker, x: string) {
    forall v, c :: mk(v, c).Ok? ==> mk(v, c).value.Get(x) == v.Get(x)
  }

  /** A maker that binds `x` to `h` whenever it succeeds. */
  ghost predicate Binds(mk: FuncMapMaker, x: string, h: Helper) {
    forall v, c :: mk(v, c).Ok? ==> mk(v, c).value.Get(x) == Some(h)
  }

  /** The first failing maker ends the run with its error: the makers after it never run, so
      the outcome does not depend on them. */
  lemma {:induction false} MakerErrorStopsRun(values: FuncValues, pre: seq<string>, n: string, post: seq<string>,
                                              m: map<string, FuncMapMaker>, ctx: Request, reached: FuncValues)
    requires forall k :: k in pre + [n] + post ==> k in m
    requires RunMakers(values, pre, m, ctx) == Ok(reached)
    requires m[n](reached, ctx).Err?
    ensures RunMakers(values, pre + [n] + post, m, ctx) == Err(m[n](reached, ctx).error)
    decreases |pre|
  {
    if pre == [] {
      assert pre + [n] + post == [n] + post;
      assert ([n] + post)[1..] == post;
    } else {
      assert (pre + [n] + post)[1..] == pre[1..] + [n] + post;
      match m[pre[0]](values, ctx)
      case Err(e) =>
      case Ok(next) => MakerErrorStopsRun(next, pre[1..], n, post, m, ctx, reached);
    }
  }

  /** A run of makers that all keep `x` keeps `x`. */
  lemma {:induction false} RunMakersKeeps(values: FuncValues, names: seq<string>, m: map<string, FuncMapMaker>,
                                          ctx: Request, x: string)
    requires forall k :: k in names ==> k in m
    requires forall k :: k in names ==> Keeps(m[k], x)
    requires RunMakers(values, names, m, ctx).Ok?
    ensures RunMakers(values, names, m, ctx).value.Get(x) == values.Get(x)
    decreases |names|
  {
    if names != [] {
      var out := m[names[0]](values, ctx);
      assert Keeps(m[names[0]], x);
      RunMakersKeeps(out.value, names[1..], m, ctx, x);
    }
  }

  /** Registration order decides between makers: when maker `b` binds `x` and every maker
      after it keeps `x`, the run ends with `b`'s binding. */
  lemma {:induction false} LaterMakerWins(values: FuncValues, pre: seq<string>, b: string, post: seq<string>,
                                          m: map<string, FuncMapMaker>, ctx: Request, x: string, h: Helper)
    requires forall k :: k in pre + [b] + post ==> k in m
    requires Binds(m[b], x, h)
    requires forall k :: k in post ==> Keeps(m[k], x)
    requires RunMakers(values, pre + [b] + post, m, ctx).Ok?
    ensures RunMakers(values, pre + [b] + post, m, ctx).value.Get(x) == Some(h)
    decreases |pre|
  {
    if pre == [] {
      assert pre + [b] + post == [b] + post;
      assert ([b] + post)[1..] == post;
      var out := m[b](values, ctx);
      RunMakersKeeps(out.value, post, m, ctx, x);
    } else {
      assert (pre + [b] + post)[1..] == pre[1..] + [b] + post;
      var out := m[pre[0]](values, ctx);
      LaterMakerWins(out.value, pre[1..], b, post, m, ctx, x, h);
    }
  }

  /** The layers of `prepare`, highest first: the call-site maps, then the fixed bindings. */
  lemma PrepareLayers(funcs: FuncValues, configMaker: Option<FuncMapMaker>, makers: FuncMapMakers,
                      callFuncs: seq<FuncValues>, ctx: Request, x: string)
    requires forall n :: n in makers.keys ==> n in makers.vals
    requires forall i :: 0 <= i < |callFuncs| ==> callFuncs[i].Valid()
    requires Prepared(funcs, configMaker, makers, callFuncs, ctx).Ok?
    ensures var r := Prepared(funcs, configMaker, makers, callFuncs, ctx).value;
            && (LastBinding(callFuncs, x).Some? ==> r.Get(x) == LastBinding(callFuncs, x))
            && (LastBinding(callFuncs, x).None? && x in FixedNames ==> r.Get(x) == Some(Builtin(x)))
  {
  }

  /** The renderer's own bindings are the lowest layer: they survive when no maker, fixed
      binding or call-site map touches the name. */
  lemma PrepareKeepsRendererFuncs(funcs: FuncValues, configMaker: Option<FuncMapMaker>, makers: FuncMapMakers,
                                  callFuncs: seq<FuncValues>, ctx: Request, x: string)
    requires forall n :: n in makers.keys ==> n in makers.vals
    requires funcs.Valid() && forall i :: 0 <= i < |callFuncs| ==> callFuncs[i].Valid()
    requires configMaker.Some? ==> Keeps(configMaker.value, x)
    requires forall n :: n in makers.keys ==> Keeps(makers.vals[n], x)
    requires x !in FixedNames && LastBinding(callFuncs, x).None?
    requires Prepared(funcs, configMaker, makers, callFuncs, ctx).Ok?
    ensures Prepared(funcs, configMaker, makers, callFuncs, ctx).value.Get(x) == funcs.Get(x)
  {
    var base := Empty<Helper>().AppendValues(funcs);
    var configured := if configMaker.Some? then configMaker.value(base, ctx) else Ok(base);
    assert configured.Ok?;
    assert configured.value.Get(x) == funcs.Get(x);
    RunMakersKeeps(configured.value, makers.keys, makers.vals, ctx, x);
  }

  /** The maker layer of `prepare` for a registered maker: when registered maker `b` binds `x`
      to `h`, every maker registered after it keeps `x`, and neither a fixed binding nor a
      call-site map touches `x`, the prepared values bind `x` to `h`. */
  lemma PrepareRegisteredMakerBinding(funcs: FuncValues, configMaker: Option<FuncMapMaker>, makers: FuncMapMakers,
                                      callFuncs: seq<FuncValues>, ctx: Request,
                                      pre: seq<string>, b: string, post: seq<string>, x: string, h: Helper)
    requires makers.keys == pre + [b] + post
    requires forall k :: k in makers.keys ==> k in makers.vals
    requires forall i :: 0 <= i < |callFuncs| ==> callFuncs[i].Valid()
    requires Binds(makers.vals[b], x, h)
    requires forall k :: k in post ==> Keeps(makers.vals[k], x)
    requires x !in FixedNames && LastBinding(callFuncs, x).None?
    requires Prepared(funcs, configMaker, makers, callFuncs, ctx).Ok?
    ensures Prepared(funcs, configMaker, makers, callFuncs, ctx).value.Get(x) == Some(h)
  {
    var base := Empty<Helper>().AppendValues(funcs);
    var configured := if configMaker.Some? then configMaker.value(base, ctx) else Ok(base);
    assert configured.Ok?;
    LaterMakerWins(configured.value, pre, b, post, makers.vals, ctx, x, h);
  }

  /** The configured maker runs below the registered ones: when it binds `x` to `h`, every
      registered maker keeps `x`, and neither a fixed binding nor a call-site map touches `x`,
      the prepared values bind `x` to `h`. */
  lemma PrepareConfiguredMakerBinding(funcs: FuncValues, mk: FuncMapMaker, makers: FuncMapMakers,
                                      callFuncs: seq<FuncValues>, ctx: Request, x: string, h: Helper)
    requires forall k :: k in makers.keys ==> k in makers.vals
    requires forall i :: 0 <= i < |callFuncs| ==> callFuncs[i].Valid()
    requires Binds(mk, x, h)
    requires forall k :: k in makers.keys ==> Keeps(makers.vals[k], x)
    requires x !in FixedNames && LastBinding(callFuncs, x).None?
    requires Prepared(funcs, Some(mk), makers, callFuncs, ctx).Ok?
    ensures Prepared(funcs, Some(mk), makers, callFuncs, ctx).value.Get(x) == Some(h)
  {
    var configured := mk(Empty<Helper>().AppendValues(funcs), ctx);
    assert configured.Ok?;
    RunMakersKeeps(configured.value, makers.keys, makers.vals, ctx, x);
  }

  /** A failure of the configured maker is the outcome of `prepare`: no registered maker
      runs, no fixed binding is added and the call-site maps are not merged. */
  lemma PrepareConfiguredMakerFailure(funcs: FuncValues, mk: FuncMapMaker, makers: FuncMapMakers,
                                      callFuncs: seq<FuncValues>, ctx: Request)
    requires forall k :: k in makers.keys ==> k in makers.vals
    requires mk(Empty<Helper>().AppendValues(funcs), ctx).Err?
    ensures Prepared(funcs, Some(mk), makers, callFuncs, ctx) == Err(mk(Empty<Helper>().AppendValues(funcs), ctx).error)
  {
  }

  /** A failure of a registered maker, reached after the configured maker succeeded, is the
      outcome of `prepare`: no fixed binding is added and the call-site maps are not merged. */
  lemma PrepareMakerFailure(funcs: FuncValues, configMaker: Option<FuncMapMaker>, makers: FuncMapMakers,
                            callFuncs: seq<FuncValues>, ctx: Request,
                            pre: seq<string>, n: string, post: seq<string>, reached: FuncValues)
    requires makers.keys == pre + [n] + post
    requires forall k :: k in makers.keys ==> k in makers.vals
    requires var base := Empty<Helper>().AppendValues(funcs);
             var configured := if configMaker.Some? then configMaker.value(base, ctx) else Ok(base);
             configured.Ok? && RunMakers(configured.value, pre, makers.vals, ctx) == Ok(reached)
    requires makers.vals[n](reached, ctx).Err?
    ensures Prepared(funcs, configMaker, makers, callFuncs, ctx) == Err(makers.vals[n](reached, ctx).error)
  {
    var base := Empty<Helper>().AppendValues(funcs);
    var configured := if configMaker.Some? then configMaker.value(base, ctx) else Ok(base);
    MakerErrorStopsRun(configured.value, pre, n, post, makers.vals, ctx, reached);
  }

  /** The path segments `local_url` and `local_static_url` hand to the request's URL builder:
      the given ones, behind the `prefix` binding's value when that is not empty. */
  function LocalSegments(prefix: string, s: seq<string>): (segs: seq<string>)
    ensures prefix == "" ==> segs == s
    ensures prefix != "" ==> |segs| == |s| + 1 && segs[0] == prefix && segs[1..] == s
  {
    if prefix == "" then s else [prefix] + s
  }

  /** `local_url(s...)`: with an empty prefix it is `url(s...)`, otherwise `url` of the
      prefixed segments. */
  function LocalUrl(ctx: Request, prefix: string, s: seq<string>): (u: string)
    ensures prefix == "" ==> u == ctx.path(s)
    ensures prefix != "" ==> u == ctx.path([prefix] + s)
  {
    ctx.path(LocalSegments(prefix, s))
  }

  /** `local_static_url(s...)`: with an empty prefix it is `static_url(s...)`, otherwise
      `static_url` of the prefixed segments. */
  function LocalStaticUrl(ctx: Request, prefix: string, s: seq<string>): (u: string)
    ensures prefix == "" ==> u == ctx.joinStaticURL(s)
    ensures prefix != "" ==> u == ctx.joinStaticURL([prefix] + s)
  {
    ctx.joinStaticURL(LocalSegments(prefix, s))
  }

  /** The asset `findTemplate` looks up for template `name`. */
  function AssetName(name: string): (key: string)
    ensures |key| == |name| + 5 && key[..|name|] == name && key[|name|..] == ".tmpl"
  {
    name + ".tmpl"
  }

  /** Different templates are looked up under different assets. */
  lemma AssetNameInjective(a: string, b: string)
    requires AssetName(a) == AssetName(b)
    ensures a == b
  {
    assert a == AssetName(a)[..|a|] == AssetName(b)[..|b|] == b;
  }

  datatype AssetError = PathError(msg: string) | StoreError(msg: string)

  /** An asset found in the store: its path and the outcome of reading its data. */
  datatype Asset = Asset(path: string, data: Result<string, string>)

  /** The errors of loading a template. */
  datatype LoadError =
    | FindFailed(name: string, findError: AssetError)
    | ReadFailed(message: string)
    | ParseFailed(name: string, message: string)

  /** The asset store, and the parser of (name, path, source) into an executor. */
  type AssetStore = string -> Result<Asset, AssetError>
  type Parser<E> = (string, string, string) -> Result<E, string>

  /** The loader `getExecutor` hands to the compiled-template cache for `name`. */
  function GetExecutor<E>(name: string, store: AssetStore, parse: Parser<E>): (r: Result<E, LoadError>)
    ensures store(AssetName(name)).Err? ==> r == Err(FindFailed(name, store(AssetName(name)).error))
    ensures r.Ok? <==> && store(AssetName(name)).Ok?
                       && store(AssetName(name)).value.data.Ok?
                       && parse(name, store(AssetName(name)).value.path, store(AssetName(name)).value.data.value).Ok?
  {
    match store(AssetName(name))
    case Err(e) => Err(FindFailed(name, e))
    case Ok(asset) =>
      match asset.data
      case Err(e) => Err(ReadFailed(e))
      case Ok(data) =>
        match parse(name, asset.path, data)
        case Err(e) => Err(ParseFailed(name, e))
        case Ok(executor) => Ok(executor)
  }

  /** When the template's asset is missing, parsing is never attempted: the outcome is the
      same whatever the parser. */
  lemma LookupFailureNeverParses<E>(name: string, store: AssetStore, p1: Parser<E>, p2: Parser<E>)
    requires store(AssetName(name)).Err?
    ensures GetExecutor(name, store, p1) == GetExecutor(name, store, p2)
  {
  }

  /** Only the asset `name + ".tmpl"` is consulted; a parse failure yields no executor, and
      success yields exactly what the parser built from that asset. */
  lemma GetExecutorUsesOnlyItsAsset<E>(name: string, s1: AssetStore, s2: AssetStore, parse: Parser<E>)
    requires s1(AssetName(name)) == s2(AssetName(name))
    ensures GetExecutor(name, s1, parse) == GetExecutor(name, s2, parse)
    ensures var a := s1(AssetName(name));
            a.Ok? && a.value.data.Ok? ==>
              GetExecutor(name, s1, parse) ==
                match parse(name, a.value.path, a.value.data.value)
                case Err(e) => Err(ParseFailed(name, e))
                case Ok(executor) => Ok(executor)
  {
  }

  /** `SetLayout`: a copy that differs from the receiver in its layout only. */
  function SetLayout(t: Template, layout: string): (r: Template)
    ensures r.layout == layout && r.(layout := t.layout) == t
  {
    t.(layout := layout)
  }

  /** `SetFuncValues`: a copy whose function values have `fv` merged in, later sets winning. */
  function SetFuncValues(t: Template, fv: seq<FuncValues>): (r: Template)
    ensures r.(funcValues := t.funcValues) == t
    ensures (forall i :: 0 <= i < |fv| ==> fv[i].Valid()) ==>
              forall k :: r.funcValues.Get(k) == (var b := LastBinding(fv, k); if b.Some? then b else t.funcValues.Get(k))
  {
    t.(funcValues := t.funcValues.Append(fv))
  }

  /** `SetFuncs`: a copy with the maps `fv` added after its call-site maps. */
  function SetFuncs(t: Template, fv: seq<FuncValues>): (r: Template)
    ensures r.(funcs := t.funcs) == t
    ensures |r.funcs| == |t.funcs| + |fv| && r.funcs[..|t.funcs|] == t.funcs && r.funcs[|t.funcs|..] == fv
  {
    t.(funcs := t.funcs + fv)
  }

  /** `Layout(name)` is `Template()` with its layout set, and the renderer is not changed. */
  lemma LayoutIsTemplateWithLayout(r: Render, name: string)
    ensures r.Layout(name) == SetLayout(r.Template(), name)
  {
  }

  /** A render failure names the template whose render failed. */
  datatype RenderError = RenderFailed(templateName: string, cause: string)

  /** The external template engine: renders the named template of a template (with its layout,
      its default layout and its function values) or fails. */
  type Engine = (Template, string) -> Result<string, string>

  /** The outcome of `RenderW`: prepare the values, merge them into the template's own
      function values, run the engine; any failure is wrapped with the template's name. */
  function RenderOutcome(r: Render, t: Template, templateName: string, ctx: Request, engine: Engine)
    : (out: Result<string, RenderError>)
    reads r
    requires r.Valid()
    ensures out.Err? ==> out.error.templateName == templateName
    ensures out.Ok? ==> var p := Prepared(r.funcs, r.config.funcMapMaker, r.Makers(), t.funcs, ctx);
                        p.Ok? && engine(t.(funcValues := t.funcValues.AppendValues(p.value)), templateName) == Ok(out.value)
    ensures var p := Prepared(r.funcs, r.config.funcMapMaker, r.Makers(), t.funcs, ctx);
            && (p.Err? ==> out == Err(RenderFailed(templateName, p.error)))
            && (p.Ok? ==> var e := engine(t.(funcValues := t.funcValues.AppendValues(p.value)), templateName);
                          && (e.Ok? ==> out == Ok(e.value))
                          && (e.Err? ==> out == Err(RenderFailed(templateName, e.error))))
  {
    match Prepared(r.funcs, r.config.funcMapMaker, r.Makers(), t.funcs, ctx)
    case Err(e) => Err(RenderFailed(templateName, e))
    case Ok(values) =>
      match engine(t.(funcValues := t.funcValues.AppendValues(values)), templateName)
      case Err(e) => Err(RenderFailed(templateName, e))
      case Ok(output) => Ok(output)
  }

  /** `RenderW`. */
  method RenderW(r: Render, t: Template, templateName: string, ctx: Request, engine: Engine)
    returns (out: Result<string, RenderError>)
    requires r.Valid()
    ensures out == RenderOutcome(r, t, templateName, ctx, engine)
  {
    var values := Prepare(r, t, ctx);
    if values.Err? {
      return Err(RenderFailed(templateName, values.error));
    }
    var rendered := engine(t.(funcValues := t.funcValues.AppendValues(values.value)), templateName);
    if rendered.Err? {
      return Err(RenderFailed(templateName, rendered.error));
    }
    out := Ok(rendered.value);
  }

  /** `Render`: the rendered markup when `RenderW` succeeds; otherwise no markup and the
      wrapped error. */
  method RenderTemplate(r: Render, t: Template, templateName: string, ctx: Request, engine: Engine)
    returns (s: string, err: Option<RenderError>)
    requires r.Valid()
    ensures var out := RenderOutcome(r, t, templateName, ctx, engine);
            && (err.None? <==> out.Ok?)
            && (out.Ok? ==> s == out.value)
            && (out.Err? ==> s == "" && err == Some(out.error))
  {
    var out := RenderW(r, t, templateName, ctx, engine);
    if out.Err? {
      return "", Some(out.error);
    }
    s, err := out.value, None;
  }

  /** The response writer of the request: its headers and the chunks written to it. */
  class ResponseWriter {
    var header: map<string, string>
    var written: seq<string>

    constructor (header: map<string, string>)
      ensures this.header == header && written == []
    {
      this.header := header;
      written := [];
    }

    /** `Header().Get(key)`: "" for a header that is not set. */
    function HeaderGet(key: string): string
      reads this
    {
      if key in header then header[key] else ""
    }

    /** Writes `data`; `outcome` is the error the underlying connection reports, if any. */
    method Write(data: string, outcome: Option<string>) returns (err: Option<string>)
      modifies this
      ensures written == old(written) + [data] && header == old(header)
      ensures err == outcome
    {
      written := written + [data];
      err := outcome;
    }
  }

  /** The headers after `Execute` succeeds: `Content-Type` is set to `text/html` only when
      the request had none (`Header().Get` gives "" for a header that is not set). */
  function WithDefaultContentType(header: map<string, string>): (r: map<string, string>)
    ensures "Content-Type" !in header || header["Content-Type"] == "" ==> "Content-Type" in r && r["Content-Type"] == "text/html"
    ensures "Content-Type" in header && header["Content-Type"] != "" ==> r == header
    ensures forall k :: k != "Content-Type" ==> (k in r <==> k in header) && (k in header ==> r[k] == header[k])
  {
    if "Content-Type" !in header || header["Content-Type"] == "" then header["Content-Type" := "text/html"]
    else header
  }

  datatype ExecuteError = RenderError(error: RenderError) | WriteError(message: string)

  /** `Execute`: on a failed render nothing is written and the headers are untouched; on
      success `Content-Type: text/html` is set only if no content type was set, and the whole
      markup is written once. */
  method Execute(r: Render, t: Template, templateName: string, ctx: Request, engine: Engine,
                 w: ResponseWriter, writeOutcome: Option<string>)
    returns (err: Option<ExecuteError>)
    requires r.Valid()
    modifies w
    ensures var out := RenderOutcome(r, t, templateName, ctx, engine);
            && (out.Err? ==> err == Some(RenderError(out.error)) && w.header == old(w.header) && w.written == old(w.written))
            && (out.Ok? ==> w.written == old(w.written) + [out.value])
            && (out.Ok? ==> w.header == WithDefaultContentType(old(w.header)))
            && (out.Ok? ==> err == if writeOutcome.Some? then Some(WriteError(writeOutcome.value)) else None)
  {
    var out := RenderW(r, t, templateName, ctx, engine);
    if out.Err? {
      return Some(RenderError(out.error));
    }
    if w.HeaderGet("Content-Type") == "" {
      w.header := w.header["Content-Type" := "text/html"];
    }
    var werr := w.Write(out.value, writeOutcome);
    err := if werr.Some? then Some(WriteError(werr.value)) else None;
  }

  /** `Render.Execute`: `Execute` on the renderer's default template. */
  method ExecuteDefault(r: Render, templateName: string, ctx: Request, engine: Engine,
                        w: ResponseWriter, writeOutcome: Option<string>)
    returns (err: Option<ExecuteError>)
    requires r.Valid()
    modifies w
    ensures var out := RenderOutcome(r, r.Template(), templateName, ctx, engine);
            && (out.Err? ==> err == Some(RenderError(out.error)) && w.header == old(w.header) && w.written == old(w.written))
            && (out.Ok? ==> w.written == old(w.written) + [out.value])
            && (out.Ok? ==> w.header == WithDefaultContentType(old(w.header)))
            && (out.Ok? ==> err == if writeOutcome.Some? then Some(WriteError(writeOutcome.value)) else None)
  {
    err := Execute(r, r.Template(), templateName, ctx, engine, w, writeOutcome);
  }
}
