/** The logic of render.go's free-standing helpers: the locale taken from the environment and
    the bodies of the `current_locale`, `media_url`, `render_scripts`, `render_styles` and
    `form` template helpers that the built-in function map maker binds. */
module RenderHelpers {
  import opened Wrappers
  import opened Handlers

  /** The text of `s` before its first '.', or all of `s` when it has none
      (`strings.Split(s, ".")[0]`). */
  function BeforeFirstDot(s: string): (r: string)
    decreases |s|
    ensures '.' !in r
    ensures |r| <= |s| && r == s[..|r|]
    ensures |r| < |s| ==> s[|r|] == '.'
  {
    if s == [] || s[0] == '.' then []
    else [s[0]] + BeforeFirstDot(s[1..])
  }

  /** The locale named by the `LANG` environment value `lang`, without its encoding:
      empty when `lang` is empty, otherwise the text before the first '.'. */
  function DefaultLocale(lang: string): (locale: string)
    ensures lang == "" ==> locale == ""
    ensures '.' !in locale
    ensures |locale| <= |lang| && locale == lang[..|locale|]
    ensures |locale| < |lang| ==> lang[|locale|] == '.'
  {
    if lang != "" then BeforeFirstDot(lang) else lang
  }

  /** The contract of `DefaultLocale` determines its result: a dot-free prefix of `lang` that
      stops at the end or at a '.' is the default locale. */
  lemma DefaultLocaleUnique(lang: string, r: string)
    requires '.' !in r
    requires |r| <= |lang| && r == lang[..|r|]
    requires |r| < |lang| ==> lang[|r|] == '.'
    ensures r == DefaultLocale(lang)
  {
    var d := DefaultLocale(lang);
    assert |r| == |d|;
  }

  /** A locale without an encoding part is its own default locale, so `DefaultLocale` is
      idempotent. */
  lemma DefaultLocaleIdempotent(lang: string)
    ensures '.' !in lang ==> DefaultLocale(lang) == lang
    ensures DefaultLocale(DefaultLocale(lang)) == DefaultLocale(lang)
  {
    if '.' !in lang {
      DefaultLocaleUnique(lang, lang);
    }
    var d := DefaultLocale(lang);
    DefaultLocaleUnique(d, d);
  }

  lemma DefaultLocaleExample()
    ensures DefaultLocale("pt_BR.UTF-8") == "pt_BR"
    ensures DefaultLocale("C") == "C"
  {
    DefaultLocaleUnique("pt_BR.UTF-8", "pt_BR");
    DefaultLocaleUnique("C", "C");
  }

  /** `current_locale`: the value of the request's `locale` cookie when it has one, otherwise
      the configured default locale. */
  function CurrentLocale(localeCookie: Option<string>, defaultLocale: string): (locale: string)
    ensures localeCookie.Some? ==> locale == localeCookie.value
    ensures localeCookie.None? ==> locale == defaultLocale
  {
    match localeCookie
    case Some(value) => value
    case None => defaultLocale
  }

  /** The storage `media_url` asks for: the last storage name given, or "default". */
  method MediaStorageName(storageName: seq<string>) returns (sname: string)
    ensures storageName == [] ==> sname == "default"
    ensures storageName != [] ==> sname == storageName[|storageName| - 1]
  {
    sname := "default";
    for i := 0 to |storageName|
      invariant i == 0 ==> sname == "default"
      invariant i > 0 ==> sname == storageName[i - 1]
    {
      sname := storageName[i];
    }
  }

  /** `media_url(pth, storageName...)`: the request's media URL of `pth` in the chosen storage. */
  method MediaUrl(pth: string, storageName: seq<string>, mediaURL: (string, string) -> string)
    returns (url: string)
    ensures url == mediaURL(if storageName == [] then "default" else storageName[|storageName| - 1], pth)
  {
    var sname := MediaStorageName(storageName);
    url := mediaURL(sname, pth);
  }

  /** The text written in place of a failing script or style handler; `kind` is "script" or
      "style". */
  function Marker(kind: string, h: WriterHandler): (marker: string)
    requires h.err.Some?
    ensures var lead := "[[render execute " + kind + " handler `";
            && |marker| == |lead| + |h.name| + |"` failed: "| + |h.err.value| + 2
            && marker[..|lead|] == lead
            && marker[|lead|..|lead| + |h.name|] == h.name
            && marker[|lead| + |h.name|..|marker| - 2] == "` failed: " + h.err.value
            && marker[|marker| - 2..] == "]]"
  {
    "[[render execute " + kind + " handler `" + h.name + "` failed: " + h.err.value + "]]"
  }

  /** What running one handler list writes: each handler's own output, in order, up to and
      including the first failing handler, whose output is followed by its marker. */
  function Emitted(kind: string, hs: seq<WriterHandler>): string
    decreases |hs|
  {
    if hs == [] then ""
    else if hs[0].err.Some? then hs[0].writes + Marker(kind, hs[0])
    else hs[0].writes + Emitted(kind, hs[1..])
  }

  /** What running several handler lists one after the other writes. */
  function EmittedAll(kind: string, lists: seq<seq<WriterHandler>>): string
    decreases |lists|
  {
    if lists == [] then ""
    else EmittedAll(kind, lists[..|lists| - 1]) + Emitted(kind, lists[|lists| - 1])
  }

  /** The concatenated output of handlers that all succeed. */
  function Writes(hs: seq<WriterHandler>): string
    decreases |hs|
  {
    if hs == [] then "" else hs[0].writes + Writes(hs[1..])
  }

  /** A failing handler ends its list: whatever follows it is not run, and the list's output is
      what the succeeding handlers before it wrote, then its own output and marker. */
  lemma {:induction false} EmittedStopsAtFirstFailure(kind: string, pre: seq<WriterHandler>,
                                                       h: WriterHandler, post: seq<WriterHandler>)
    requires forall x :: x in pre ==> x.err.None?
    requires h.err.Some?
    ensures Emitted(kind, pre + [h] + post) == Writes(pre) + h.writes + Marker(kind, h)
  {
    if pre == [] {
      assert pre + [h] + post == [h] + post;
    } else {
      assert (pre + [h] + post)[1..] == pre[1..] + [h] + post;
      EmittedStopsAtFirstFailure(kind, pre[1..], h, post);
    }
  }

  /** A list in which no handler fails writes every handler's output. */
  lemma {:induction false} EmittedWithoutFailure(kind: string, hs: seq<WriterHandler>)
    requires forall x :: x in hs ==> x.err.None?
    ensures Emitted(kind, hs) == Writes(hs)
  {
    if hs != [] {
      EmittedWithoutFailure(kind, hs[1..]);
    }
  }

  /** The inner loop of `render_scripts`/`render_styles`: run one list into the buffer, leaving
      it at its first failing handler. */
  method RunHandlerList(kind: string, hs: seq<WriterHandler>) returns (out: string)
    ensures out == Emitted(kind, hs)
  {
    out := "";
    for i := 0 to |hs|
      invariant Emitted(kind, hs) == out + Emitted(kind, hs[i..])
    {
      var h := hs[i];
      assert hs[i..][1..] == hs[i + 1..];
      out := out + h.writes;
      if h.err.Some? {
        out := out + Marker(kind, h);
        return;
      }
    }
  }

  /** The loop of `render_scripts`/`render_styles`: run each list in order into one buffer,
      leaving a list at its first failing handler but going on with the next list. */
  method RunWriterHandlers(kind: string, lists: seq<seq<WriterHandler>>) returns (out: string)
    ensures out == EmittedAll(kind, lists)
  {
    out := "";
    for l := 0 to |lists|
      invariant out == EmittedAll(kind, lists[..l])
    {
      var written := RunHandlerList(kind, lists[l]);
      out := out + written;
      assert lists[..l + 1][..l] == lists[..l];
    }
    assert lists[..|lists|] == lists;
  }

  /** `render_scripts`: the renderer's script handlers, then the request context's. */
  method RenderScripts(renderHandlers: seq<ScriptHandler>, contextHandlers: seq<ScriptHandler>)
    returns (html: string)
    ensures html == Emitted("script", renderHandlers) + Emitted("script", contextHandlers)
  {
    html := RunWriterHandlers("script", [renderHandlers, contextHandlers]);
    assert [renderHandlers, contextHandlers][..1] == [renderHandlers];
    assert [renderHandlers][..0] == [];
    assert EmittedAll("script", [renderHandlers]) == Emitted("script", renderHandlers);
  }

  /** `render_styles`: the renderer's style handlers, then the request context's. */
  method RenderStyles(renderHandlers: seq<StyleHandler>, contextHandlers: seq<StyleHandler>)
    returns (html: string)
    ensures html == Emitted("style", renderHandlers) + Emitted("style", contextHandlers)
  {
    html := RunWriterHandlers("style", [renderHandlers, contextHandlers]);
    assert [renderHandlers, contextHandlers][..1] == [renderHandlers];
    assert [renderHandlers][..0] == [];
    assert EmittedAll("style", [renderHandlers]) == Emitted("style", renderHandlers);
  }

  /** The handler that failed first and its message. */
  datatype FormFailure = FormFailure(handler: string, message: string)

  /** Threads the form state through the handlers in order, stopping at the first failure. */
  function RunForms(st: FormState, hs: seq<FormHandler>): (r: Result<FormState, FormFailure>)
    ensures (forall i, s :: 0 <= i < |hs| ==> hs[i].handler(s).Ok?) ==> r.Ok?
    ensures r.Err? ==> exists i, s :: 0 <= i < |hs| && hs[i].handler(s) == Err(r.error.message) && hs[i].name == r.error.handler
    decreases |hs|
  {
    if hs == [] then Ok(st)
    else match hs[0].handler(st)
      case Err(e) => Err(FormFailure(hs[0].name, e))
      case Ok(next) => RunForms(next, hs[1..])
  }

  /** Running two lists one after the other: a failure in the first skips the second. */
  lemma {:induction false} RunFormsAppend(st: FormState, a: seq<FormHandler>, b: seq<FormHandler>)
    ensures RunForms(st, a + b) == match RunForms(st, a)
                                   case Err(f) => Err(f)
                                   case Ok(next) => RunForms(next, b)
    decreases |a|
  {
    if a == [] {
      assert a + b == b;
    } else {
      assert (a + b)[1..] == a[1..] + b;
      match a[0].handler(st)
      case Err(e) =>
      case Ok(next) => RunFormsAppend(next, a[1..], b);
    }
  }

  /** The text returned in place of the form when handler `f.handler` fails. */
  function FormMarker(formName: string, f: FormFailure): (marker: string)
    ensures var lead := "[[render execute form handler `";
            && |marker| == |lead| + |f.handler| + |"` for `"| + |formName| + |"` form failed: "| + |f.message| + 2
            && marker[..|lead|] == lead
            && marker[|lead|..|lead| + |f.handler|] == f.handler
            && marker[|lead| + |f.handler| + |"` for `"|..][..|formName|] == formName
            && marker[|lead| + |f.handler| + |"` for `"| + |formName|..|marker| - 2] == "` form failed: " + f.message
            && marker[|marker| - 2..] == "]]"
  {
    "[[render execute form handler `" + f.handler + "` for `" + formName + "` form failed: " + f.message + "]]"
  }

  /** `form(name, pipes...)`: the form template rendered to `body`, then passed through the
      renderer's and the request context's form handlers; the first failure replaces the whole
      result by its marker. */
  method Form(name: string, body: string, renderHandlers: seq<FormHandler>, contextHandlers: seq<FormHandler>)
    returns (html: string)
    ensures html == match RunForms(FormState(name, body), renderHandlers + contextHandlers)
                    case Ok(st) => st.body
                    case Err(f) => FormMarker(name, f)
  {
    var state := FormState(name, body);
    var hs := renderHandlers + contextHandlers;
    for i := 0 to |hs|
      invariant RunForms(FormState(name, body), hs) == RunForms(state, hs[i..])
    {
      assert hs[i..][1..] == hs[i + 1..];
      var out := hs[i].handler(state);
      if out.Err? {
        return FormMarker(name, FormFailure(hs[i].name, out.error));
      }
      state := out.value;
    }
    html := state.body;
  }

  /** Unlike `render_scripts`, `form` treats both lists as one: when a renderer handler fails,
      no context handler runs and the result does not depend on them. */
  lemma FormRendererFailureSkipsContext(st: FormState, renderHandlers: seq<FormHandler>,
                                        c1: seq<FormHandler>, c2: seq<FormHandler>)
    requires RunForms(st, renderHandlers).Err?
    ensures RunForms(st, renderHandlers + c1) == RunForms(st, renderHandlers + c2) == RunForms(st, renderHandlers)
  {
    RunFormsAppend(st, renderHandlers, c1);
    RunFormsAppend(st, renderHandlers, c2);
  }
}
