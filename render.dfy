/** The renderer of render.go: its configuration and the defaulting `New` applies, the
    registry of function map makers, the renderer-wide helper bindings, the built-in maker
    that `New` registers, and the templates the renderer hands out. */
module Render {
  import opened Wrappers
  import opened OrderedMaps
  import opened Handlers
  import opened RenderHelpers

  /** The name render.go declares for the default layout; `New` does not apply it. */
  const DefaultLayout: string := "application"

  /** A helper bound in a function value set: one this package defines, identified by the
      name it binds it under, or a value supplied from outside (a maker, a caller). */
  datatype Helper = Builtin(name: string) | Foreign(tag: string)

  type FuncValues = OrderedMap<Helper>

  /** The request (`*core.Context`) as the renderer sees it: its `locale` cookie and its URL
      builders. */
  datatype Request = Request(
    localeCookie: Option<string>,
    path: seq<string> -> string,
    joinStaticURL: seq<string> -> string,
    mediaURL: (string, string) -> string)

  /** A maker contributes bindings to the values being prepared for one render, or fails. */
  type FuncMapMaker = (FuncValues, Request) -> Result<FuncValues, string>

  type FuncMapMakers = OrderedMap<FuncMapMaker>

  datatype PageHandlers = PageHandlers(
    formHandlers: seq<FormHandler>,
    scriptHandlers: seq<ScriptHandler>,
    styleHandlers: seq<StyleHandler>)

  datatype Config = Config(
    pageHandlers: PageHandlers,
    defaultLayout: string,
    funcMapMaker: Option<FuncMapMaker>,
    debugFiles: bool,
    defaultLocale: string)

  /** `Config{}`. */
  const ZeroConfig: Config := Config(PageHandlers([], [], []), "", None, false, "")

  /** The configuration `New` keeps: the given one, or `Config{}` for nil, with an empty
      default locale filled from the `LANG` environment value `lang`. */
  function NewConfig(config: Option<Config>, lang: string): (c: Config)
    ensures var given := config.GetOr(ZeroConfig);
            && c.(defaultLocale := given.defaultLocale) == given
            && c.defaultLocale == if given.defaultLocale == "" then DefaultLocale(lang) else given.defaultLocale
  {
    var given := config.GetOr(ZeroConfig);
    if given.defaultLocale == "" then given.(defaultLocale := DefaultLocale(lang)) else given
  }

  /** `New(nil)` is `New(&Config{})`; a non-empty locale is kept, and a defaulted one carries no
      encoding part. */
  lemma NewConfigDefaults(config: Option<Config>, lang: string)
    ensures NewConfig(None, lang) == NewConfig(Some(ZeroConfig), lang)
    ensures config.Some? && config.value.defaultLocale != "" ==> NewConfig(config, lang) == config.value
    ensures NewConfig(None, lang).defaultLocale == DefaultLocale(lang)
    ensures '.' !in NewConfig(config, lang).defaultLocale || (config.Some? && config.value.defaultLocale != "")
  {
  }

  /** `New` leaves an unset default layout empty: a renderer made from `nil` or `Config{}`
      does not use `DefaultLayout`. */
  lemma NewLeavesDefaultLayoutUnset(lang: string)
    ensures NewConfig(None, lang).defaultLayout == "" != DefaultLayout
    ensures NewConfig(Some(ZeroConfig), lang).defaultLayout == "" != DefaultLayout
  {
  }

  /** `current_locale` for a request without a `locale` cookie, on a renderer whose
      configuration left the locale empty, is `LANG` up to its first '.'. */
  lemma CurrentLocaleFallsBackToEnvironment(config: Option<Config>, lang: string)
    requires config.None? || config.value.defaultLocale == ""
    ensures var locale := CurrentLocale(None, NewConfig(config, lang).defaultLocale);
            && locale == DefaultLocale(lang)
            && '.' !in locale
            && locale == lang[..|locale|]
  {
  }

  /** Names the built-in maker binds with `SetDefault`, before and after `t` and `tt`. */
  const QorDefaultsBefore: seq<string> := ["qor_context", "current_locale", "flashes", "about"]
  const QorDefaultsAfter: seq<string> :=
    ["errors", "render_scripts", "render_styles", "form", "must_config_get", "media_url"]

  /** Binds each of `names` to its built-in helper unless it is bound already. */
  function SetDefaults(values: FuncValues, names: seq<string>): (r: FuncValues)
    decreases |names|
    ensures forall n :: r.Get(n) == if n in names && n !in values.vals then Some(Builtin(n)) else values.Get(n)
    ensures values.Valid() ==> r.Valid()
  {
    if names == [] then values
    else SetDefaults(values.SetDefault(names[0], Builtin(names[0])), names[1..])
  }

  /** The maker `New` registers as "qor_context"; it never fails. */
  function QorContextMaker(values: FuncValues, ctx: Request): (r: Result<FuncValues, string>)
    ensures r.Ok?
    ensures values.Valid() ==> r.value.Valid()
  {
    var before := SetDefaults(values, QorDefaultsBefore);
    var translated := before.Set("t", Builtin("t")).Set("tt", Builtin("tt"));
    Ok(SetDefaults(translated, QorDefaultsAfter))
  }

  /** The built-in maker binds `t` and `tt` unconditionally. */
  lemma QorContextMakerTranslates(values: FuncValues, ctx: Request)
    ensures var r := QorContextMaker(values, ctx).value;
            r.Get("t") == Some(Builtin("t")) && r.Get("tt") == Some(Builtin("tt"))
  {
  }

  /** The built-in maker binds its other helpers only where nothing is bound yet. */
  lemma QorContextMakerDefaults(values: FuncValues, ctx: Request, n: string)
    requires n in QorDefaultsBefore || n in QorDefaultsAfter
    ensures QorContextMaker(values, ctx).value.Get(n) ==
              if n in values.vals then values.Get(n) else Some(Builtin(n))
  {
    assert n != "t" && n != "tt";
    var before := SetDefaults(values, QorDefaultsBefore);
    var translated := before.Set("t", Builtin("t")).Set("tt", Builtin("tt"));
    var r := SetDefaults(translated, QorDefaultsAfter);
    assert r == QorContextMaker(values, ctx).value;
    assert translated.Get(n) == before.Get(n);
    if n in QorDefaultsBefore {
      assert n in before.vals && before.Get(n) == if n in values.vals then values.Get(n) else Some(Builtin(n));
      assert r.Get(n) == translated.Get(n);
    } else {
      assert before.Get(n) == values.Get(n);
      assert n in translated.vals <==> n in values.vals;
    }
  }

  /** The built-in maker leaves every binding it does not make alone. */
  lemma QorContextMakerKeepsOthers(values: FuncValues, ctx: Request, n: string)
    requires n !in QorDefaultsBefore && n !in QorDefaultsAfter && n != "t" && n != "tt"
    ensures QorContextMaker(values, ctx).value.Get(n) == values.Get(n)
  {
  }

  /** A template as the renderer hands it out (template.go:25-29 together with the fields of
      the embedded template it sets): the layout, whether the default layout applies, the
      default layout's name, the debug flag, the template's own function values and the
      call-site function maps. */
  datatype Template = Template(
    layout: string,
    usingDefaultLayout: bool,
    defaultLayout: string,
    debugFiles: bool,
    funcValues: FuncValues,
    funcs: seq<FuncValues>)

  /** `NewTemplate`: a template with every field at its zero value: no layout, the default
      layout not in use, no debug output, and no function values of its own. */
  function NewTemplate(): (t: Template)
    ensures t.layout == "" && !t.usingDefaultLayout && t.defaultLayout == "" && !t.debugFiles
    ensures t.funcValues == Empty() && t.funcs == []
  {
    Template("", false, "", false, Empty(), [])
  }

  class Render {
    var config: Config
    /** The registry of function map makers: `m` and the names in first-registration order. */
    var m: map<string, FuncMapMaker>
    var names: seq<string>
    /** The renderer-wide helper bindings (`RegisterFuncMap`). */
    var funcs: FuncValues

    ghost predicate Valid()
      reads this
    {
      Makers().Valid() && funcs.Valid()
    }

    function Makers(): FuncMapMakers
      reads this
    {
      OrderedMap(names, m)
    }

    constructor New(config: Option<Config>, lang: string)
      ensures Valid()
      ensures this.config == NewConfig(config, lang)
      ensures names == ["qor_context"] && m == map["qor_context" := QorContextMaker]
      ensures funcs.keys == ["raw", "genid"]
      ensures funcs.Get("raw") == Some(Builtin("raw")) && funcs.Get("genid") == Some(Builtin("genid"))
    {
      this.config := NewConfig(config, lang);
      m := map[];
      names := [];
      funcs := Empty();
      new;
      RegisterFuncMapMaker("qor_context", QorContextMaker);
      RegisterFuncMap("raw", Builtin("raw"));
      RegisterFuncMap("genid", Builtin("genid"));
    }

    /** A new name is appended to the order; a registered name gets the new maker and keeps
        its place. */
    method RegisterFuncMapMaker(name: string, fm: FuncMapMaker)
      requires Valid()
      modifies this
      ensures Valid()
      ensures Makers() == old(Makers()).Set(name, fm)
      ensures name !in old(m) ==> names == old(names) + [name]
      ensures name in old(m) ==> names == old(names)
      ensures m == old(m)[name := fm]
      ensures config == old(config) && funcs == old(funcs)
    {
      if name !in m {
        names := names + [name];
      }
      m := m[name := fm];
    }

    /** Binds a renderer-wide helper (`funcs.Set`). */
    method RegisterFuncMap(name: string, fc: Helper)
      requires Valid()
      modifies this
      ensures Valid()
      ensures funcs == old(funcs).Set(name, fc)
      ensures config == old(config) && m == old(m) && names == old(names)
    {
      funcs := funcs.Set(name, fc);
    }

    /** A fresh template that uses the configured default layout. */
    function Template(): (t: Template)
      reads this
      ensures t.usingDefaultLayout && t.layout == ""
      ensures t.defaultLayout == config.defaultLayout && t.debugFiles == config.debugFiles
      ensures t.funcValues == Empty() && t.funcs == []
    {
      NewTemplate().(usingDefaultLayout := true, debugFiles := config.debugFiles, defaultLayout := config.defaultLayout)
    }

    /** A fresh template as `Template()` gives, with the layout `name`. */
    function Layout(name: string): (t: Template)
      reads this
      ensures t.layout == name && t.usingDefaultLayout
      ensures t.defaultLayout == config.defaultLayout && t.debugFiles == config.debugFiles
      ensures t.funcValues == Empty() && t.funcs == []
    {
      var t := Template();
      t.(layout := name)
    }
  }

  /** The registry after registering `regs` in order, starting from `start`. */
  function RegisterAll(start: FuncMapMakers, regs: seq<(string, FuncMapMaker)>): FuncMapMakers
    decreases |regs|
  {
    if regs == [] then start
    else RegisterAll(start, regs[..|regs| - 1]).Set(regs[|regs| - 1].0, regs[|regs| - 1].1)
  }

  /** The names registered by `regs`, in call order. */
  function Names(regs: seq<(string, FuncMapMaker)>): (r: seq<string>)
    decreases |regs|
    ensures |r| == |regs| && forall i :: 0 <= i < |regs| ==> r[i] == regs[i].0
  {
    if regs == [] then [] else Names(regs[..|regs| - 1]) + [regs[|regs| - 1].0]
  }

  /** `s` without repetitions, each element where it first occurs. */
  function FirstOccurrences(s: seq<string>): seq<string>
    decreases |s|
  {
    if s == [] then []
    else
      var d := FirstOccurrences(s[..|s| - 1]);
      if s[|s| - 1] in d then d else d + [s[|s| - 1]]
  }

  /** Whatever the registrations, the registry's names stay duplicate-free and are exactly
      the registered keys. */
  lemma {:induction false} RegisterAllValid(start: FuncMapMakers, regs: seq<(string, FuncMapMaker)>)
    requires start.Valid()
    ensures RegisterAll(start, regs).Valid()
    decreases |regs|
  {
    if regs != [] {
      RegisterAllValid(start, regs[..|regs| - 1]);
    }
  }

  /** Registering from an empty registry: the order is that of each name's first registration
      and the keys are exactly the registered names. */
  lemma {:induction false} RegisterAllOrder(regs: seq<(string, FuncMapMaker)>)
    ensures var r := RegisterAll(Empty(), regs);
            && r.keys == FirstOccurrences(Names(regs))
            && (forall n :: n in r.vals <==> n in Names(regs))
    decreases |regs|
  {
    if regs != [] {
      var n := |regs|;
      var prefix := regs[..n - 1];
      var x := regs[n - 1].0;
      RegisterAllOrder(prefix);
      RegisterAllValid(Empty(), prefix);
      var before := RegisterAll(Empty(), prefix);
      assert RegisterAll(Empty(), regs) == before.Set(x, regs[n - 1].1);
      assert Names(regs) == Names(prefix) + [x];
      assert Names(regs)[..n - 1] == Names(prefix);
    }
  }

  /** Each registered name holds the maker registered last under it. */
  lemma {:induction false} RegisterAllLastWins(start: FuncMapMakers, regs: seq<(string, FuncMapMaker)>, i: nat)
    requires i < |regs|
    requires forall j :: i < j < |regs| ==> regs[j].0 != regs[i].0
    ensures RegisterAll(start, regs).Get(regs[i].0) == Some(regs[i].1)
    decreases |regs|
  {
    var n := |regs|;
    if i < n - 1 {
      var prefix := regs[..n - 1];
      assert prefix[i] == regs[i];
      RegisterAllLastWins(start, prefix, i);
    }
  }
}
