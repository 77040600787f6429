/** Page handlers (handlers.go): named form, script and style handlers, lists of them with an
    in-place and a copying append, and the lists stashed in a request context. */
module Handlers {
  import opened Wrappers

  /** The state a form handler works on: the form's name and its rendered body. */
  datatype FormState = FormState(name: string, body: string)

  /** A form handler may rewrite the form state or fail with a message. */
  datatype FormHandler = FormHandler(name: string, handler: FormState -> Result<FormState, string>)

  /** A script or style handler, for the one template state and request it is run with:
      the text it writes to the output, and the error it returns, if any. */
  datatype WriterHandler = WriterHandler(name: string, writes: string, err: Option<string>)

  type ScriptHandler = WriterHandler
  type StyleHandler = WriterHandler

  /** A handler list reached through a pointer (`*FormHandlers`, `*ScriptHandlers`,
      `*StyleHandlers`), so that `Append` can reassign it in place. */
  class HandlerList<H> {
    var items: seq<H>

    constructor (items: seq<H>)
      ensures this.items == items
    {
      this.items := items;
    }

    /** `*this = append(*this, handlers...)`, returning the new list. */
    method Append(handlers: seq<H>) returns (r: seq<H>)
      modifies this
      ensures items == old(items) + handlers
      ensures r == items
    {
      items := items + handlers;
      r := items;
    }

    /** `append(this, handlers...)` on a copy of the receiver: the receiver is not reassigned. */
    method AppendCopy(handlers: seq<H>) returns (r: seq<H>)
      ensures |r| == |items| + |handlers|
      ensures r[..|items|] == items && r[|items|..] == handlers
    {
      r := items + handlers;
    }
  }

  /** The three context keys. */
  datatype Key = FormKey | ScriptKey | StyleKey

  /** What a context holds under a key: a list of one kind of handler. */
  datatype Stored =
    | Forms(forms: seq<FormHandler>)
    | Scripts(scripts: seq<ScriptHandler>)
    | Styles(styles: seq<StyleHandler>)

  /** A `context.Context` as far as handlers are concerned: `WithValue` yields a new context in
      which the key is rebound, and the old context is left as it was. */
  type Context = map<Key, Stored>

  /** `Get*Handlers` asserts the stored value's type; a value of another kind would panic. */
  ghost predicate FormsFit(c: Context) { FormKey in c ==> c[FormKey].Forms? }
  ghost predicate ScriptsFit(c: Context) { ScriptKey in c ==> c[ScriptKey].Scripts? }
  ghost predicate StylesFit(c: Context) { StyleKey in c ==> c[StyleKey].Styles? }

  function GetFormHandlers(c: Context): (r: seq<FormHandler>)
    requires FormsFit(c)
    ensures FormKey !in c ==> r == []
    ensures FormKey in c ==> Forms(r) == c[FormKey]
  {
    if FormKey in c then c[FormKey].forms else []
  }

  function GetScriptHandlers(c: Context): (r: seq<ScriptHandler>)
    requires ScriptsFit(c)
    ensures ScriptKey !in c ==> r == []
    ensures ScriptKey in c ==> Scripts(r) == c[ScriptKey]
  {
    if ScriptKey in c then c[ScriptKey].scripts else []
  }

  function GetStyleHandlers(c: Context): (r: seq<StyleHandler>)
    requires StylesFit(c)
    ensures StyleKey !in c ==> r == []
    ensures StyleKey in c ==> Styles(r) == c[StyleKey]
  {
    if StyleKey in c then c[StyleKey].styles else []
  }

  /** Adds form handlers after the ones the context already holds. */
  function AddFormHandler(c: Context, handlers: seq<FormHandler>): (r: Context)
    requires FormsFit(c)
    ensures FormsFit(r) && GetFormHandlers(r) == GetFormHandlers(c) + handlers
    ensures forall k :: k != FormKey ==> (k in r <==> k in c) && (k in c ==> r[k] == c[k])
  {
    if FormKey !in c then c[FormKey := Forms(handlers)]
    else c[FormKey := Forms(c[FormKey].forms + handlers)]
  }

  /** Adds style handlers after the ones the context already holds. */
  function AddStyleHandler(c: Context, handlers: seq<StyleHandler>): (r: Context)
    requires StylesFit(c)
    ensures StylesFit(r) && GetStyleHandlers(r) == GetStyleHandlers(c) + handlers
    ensures forall k :: k != StyleKey ==> (k in r <==> k in c) && (k in c ==> r[k] == c[k])
  {
    if StyleKey !in c then c[StyleKey := Styles(handlers)]
    else c[StyleKey := Styles(c[StyleKey].styles + handlers)]
  }

  /** `AddScriptHandler` as handlers.go:53-61 writes it: it reads the script entry but stores
      the result under the FORM key. */
  function AddScriptHandlerAsWritten(c: Context, handlers: seq<ScriptHandler>): (r: Context)
    requires ScriptsFit(c)
    ensures FormKey in r && r[FormKey] == Scripts(GetScriptHandlers(c) + handlers)
    ensures forall k :: k != FormKey ==> (k in r <==> k in c) && (k in c ==> r[k] == c[k])
  {
    if ScriptKey !in c then
      assert [] + handlers == handlers;
      c[FormKey := Scripts(handlers)]
    else c[FormKey := Scripts(c[ScriptKey].scripts + handlers)]
  }

  /** Handlers added by `AddScriptHandler` as written are never seen by `GetScriptHandlers`,
      and the form entry no longer holds form handlers. */
  lemma AddScriptHandlerAsWrittenLosesHandlers(c: Context, handlers: seq<ScriptHandler>)
    requires ScriptsFit(c) && handlers != []
    ensures var r := AddScriptHandlerAsWritten(c, handlers);
            && ScriptsFit(r)
            && GetScriptHandlers(r) == GetScriptHandlers(c)
            && GetScriptHandlers(r) != GetScriptHandlers(c) + handlers
            && !FormsFit(r)
  {
    var r := AddScriptHandlerAsWritten(c, handlers);
    assert |GetScriptHandlers(c) + handlers| > |GetScriptHandlers(c)|;
  }

  /** `AddScriptHandler` as evidently intended: the result is stored under the script key. */
  function AddScriptHandler(c: Context, handlers: seq<ScriptHandler>): (r: Context)
    requires ScriptsFit(c)
    ensures ScriptsFit(r) && GetScriptHandlers(r) == GetScriptHandlers(c) + handlers
    ensures forall k :: k != ScriptKey ==> (k in r <==> k in c) && (k in c ==> r[k] == c[k])
  {
    if ScriptKey !in c then c[ScriptKey := Scripts(handlers)]
    else c[ScriptKey := Scripts(c[ScriptKey].scripts + handlers)]
  }

  /** With the corrected `AddScriptHandler`: adding handlers of one kind never disturbs the
      lists of the other two kinds, and adding in two steps is adding the concatenation. */
  lemma {:induction false} AddHandlersCompose(c: Context, f1: seq<FormHandler>, f2: seq<FormHandler>,
                                              s: seq<ScriptHandler>, y: seq<StyleHandler>)
    requires FormsFit(c) && ScriptsFit(c) && StylesFit(c)
    ensures var r := AddStyleHandler(AddScriptHandler(AddFormHandler(AddFormHandler(c, f1), f2), s), y);
            && FormsFit(r) && ScriptsFit(r) && StylesFit(r)
            && GetFormHandlers(r) == GetFormHandlers(c) + (f1 + f2)
            && GetScriptHandlers(r) == GetScriptHandlers(c) + s
            && GetStyleHandlers(r) == GetStyleHandlers(c) + y
  {
    var c1 := AddFormHandler(c, f1);
    var c2 := AddFormHandler(c1, f2);
    assert GetFormHandlers(c2) == GetFormHandlers(c) + (f1 + f2);
    var c3 := AddScriptHandler(c2, s);
    var r := AddStyleHandler(c3, y);
    assert GetFormHandlers(r) == GetFormHandlers(c3) == GetFormHandlers(c2);
    assert GetScriptHandlers(r) == GetScriptHandlers(c3);
    assert GetScriptHandlers(c2) == GetScriptHandlers(c);
    assert GetStyleHandlers(c3) == GetStyleHandlers(c);
  }
}
