/** The `$mount` of the full (runtime + compiler) web build
    (src/platforms/web/entry-runtime-with-compiler.js): resolve a template, compile it into
    `render` and `staticRenderFns`, then hand over to the runtime-only `$mount`. */
module WebMount {
  import opened JsValues

  /** A DOM element, known by identity. */
  type ElementId = nat

  /** A compiled render function, known by identity. */
  type RenderFn = nat

  /** The `el` argument: absent, a selector string, or an element. */
  datatype ElArg = NoEl | Selector(selector: string) | Element(id: ElementId)

  predicate ElTruthy(el: ElArg) {
    match el
    case NoEl => false
    case Selector(s) => s != ""
    case Element(_) => true
  }

  /** `options.template`: a string, a DOM node (it has `nodeType`), another truthy value (with its
      string conversion), or a falsy non-string value such as undefined. */
  datatype TemplateOption = NoTemplate | TemplateString(s: string) | TemplateNode(node: ElementId) | TemplateOther(text: string)

  predicate TemplateTruthy(t: TemplateOption) {
    match t
    case NoTemplate => false
    case TemplateString(s) => s != ""
    case _ => true
  }

  /** The document as far as `$mount` reads it. `query` is the selector/element lookup of
      src/platforms/web/util (None: nothing found), `outerHTML` is "" where the property is
      missing or empty, and `cloneMarkup` is the markup of a deep clone of an element. */
  datatype Dom = Dom(
    body: ElementId,
    documentElement: ElementId,
    query: ElArg -> Option<ElementId>,
    innerHTML: ElementId -> string,
    outerHTML: ElementId -> string,
    cloneMarkup: ElementId -> string)

  /** The options `$mount` passes to `compileToFunctions`. */
  datatype CompileOptions = CompileOptions(
    outputSourceRange: bool,
    shouldDecodeNewlines: bool,
    shouldDecodeNewlinesForHref: bool,
    delimiters: Value,
    comments: Value)

  /** What `compileToFunctions` returns. */
  datatype RenderFns = RenderFns(render: RenderFn, staticRenderFns: seq<RenderFn>)

  /** Everything `$mount` consults besides the instance: the document, the build mode, the
      browser quirk flags and the compiler (its cache and code materialisation are not modelled). */
  datatype Env = Env(
    dom: Dom,
    production: bool,
    shouldDecodeNewlines: bool,
    shouldDecodeNewlinesForHref: bool,
    compileToFunctions: (string, CompileOptions) -> RenderFns)

  /** What `$mount` returns: `this` directly, or the result of the runtime `mount.call(this, el,
      hydrating)`, recorded by its arguments. */
  datatype MountResult = ReturnedThis | MountCalled(el: ElArg, hydrating: Option<bool>)

  const RootWarning: string := "Do not mount Vue to <html> or <body> - mount to normal elements instead."
  const NotFoundWarning: string := "Template element not found or is empty: "
  const InvalidWarning: string := "invalid template option:"

  /** `el = el && query(el)`. */
  function ResolveEl(el: ElArg, dom: Dom): (r: ElArg)
    ensures r.Element? || !ElTruthy(r)
    ensures !ElTruthy(el) ==> r == el
    ensures ElTruthy(el) ==> r == (if dom.query(el).Some? then Element(dom.query(el).value) else NoEl)
  {
    if ElTruthy(el) then
      match dom.query(el)
      case Some(e) => Element(e)
      case None => NoEl
    else el
  }

  predicate IsDocumentRoot(el: ElArg, dom: Dom) {
    el == Element(dom.body) || el == Element(dom.documentElement)
  }

  /** `idToTemplate(id)`: the inner markup of the element the id selects, if any. */
  function IdToTemplate(dom: Dom, id: string): (r: Option<string>)
    ensures r.Some? <==> dom.query(Selector(id)).Some?
    ensures r.Some? ==> r.value == dom.innerHTML(dom.query(Selector(id)).value)
  {
    match dom.query(Selector(id))
    case Some(e) => Some(dom.innerHTML(e))
    case None => None
  }

  /** `getOuterHTML(el)`: `el.outerHTML` when present, else the markup of a clone. */
  function OuterHTML(dom: Dom, el: ElementId): string {
    if dom.outerHTML(el) != "" then dom.outerHTML(el) else dom.cloneMarkup(el)
  }

  /** A template local holding a non-empty string: what the `if (template)` test before compiling accepts. */
  predicate Compilable(template: Option<string>) {
    template.Some? && template.value != ""
  }

  /** The outcome of the template branch: an invalid template, or the resolved template local
      (None for undefined or null) with the warnings emitted while resolving it. */
  datatype Resolution = Invalid(warnings: seq<string>) | Resolved(template: Option<string>, warnings: seq<string>)

  /** The template branch of `$mount`: the template for an instance without `render`, resolved
      against `el`. */
  function ResolveTemplate(option: TemplateOption, el: ElArg, dom: Dom, production: bool): (r: Resolution)
    ensures r.Invalid? <==> option.TemplateOther?
    ensures production ==> r.warnings == []
    ensures r.Invalid? ==> r.warnings == (if production then [] else [InvalidWarning + option.text])
    ensures r.Resolved? && r.warnings != [] ==>
              && option.TemplateString? && option.s != "" && option.s[0] == '#'
              && !Compilable(r.template)
    ensures r.Resolved? && r.template.Some? ==>
              || (option.TemplateString? && option.s != "" && option.s[0] != '#' && r.template.value == option.s)
              || (option.TemplateString? && option.s != "" && option.s[0] == '#')
              || (option.TemplateNode? && r.template.value == dom.innerHTML(option.node))
              || (!TemplateTruthy(option) && el.Element? && r.template.value == OuterHTML(dom, el.id))
    // one outcome per kind of template option
    ensures option.TemplateString? && option.s != "" && option.s[0] == '#' ==>
              var found := IdToTemplate(dom, option.s);
              r == Resolved(found, if !production && !Compilable(found) then [NotFoundWarning + option.s] else [])
    ensures option.TemplateString? && option.s != "" && option.s[0] != '#' ==> r == Resolved(Some(option.s), [])
    ensures option.TemplateNode? ==> r == Resolved(Some(dom.innerHTML(option.node)), [])
    ensures !TemplateTruthy(option) ==>
              r == (if el.Element? then Resolved(Some(OuterHTML(dom, el.id)), []) else Resolved(None, []))
  {
    match option
    case TemplateString(s) =>
      if s == "" then FromEl(el, dom)
      else if s[0] == '#' then
        var found := IdToTemplate(dom, s);
        Resolved(found, if !production && !Compilable(found) then [NotFoundWarning + s] else [])
      else Resolved(Some(s), [])
    case TemplateNode(n) => Resolved(Some(dom.innerHTML(n)), [])
    case TemplateOther(text) => Invalid(if production then [] else [InvalidWarning + text])
    case NoTemplate => FromEl(el, dom)
  }

  /** The `else if (el)` branch of `$mount`: with no template, an element supplies its outer markup. */
  function FromEl(el: ElArg, dom: Dom): Resolution {
    match el
    case Element(e) => Resolved(Some(OuterHTML(dom, e)), [])
    case _ => Resolved(None, [])
  }

  /** The options object `$mount` passes to `compileToFunctions`. */
  function CompileOptionsFor(env: Env, delimiters: Value, comments: Value): (o: CompileOptions)
    ensures o.outputSourceRange <==> !env.production
    ensures o.shouldDecodeNewlines == env.shouldDecodeNewlines
    ensures o.shouldDecodeNewlinesForHref == env.shouldDecodeNewlinesForHref
    ensures o.delimiters == delimiters && o.comments == comments
  {
    CompileOptions(!env.production, env.shouldDecodeNewlines, env.shouldDecodeNewlinesForHref, delimiters, comments)
  }

  /** The detached `div` that `getOuterHTML` fills with a clone. */
  class Container {
    var children: seq<ElementId>

    constructor ()
      ensures children == []
    {
      children := [];
    }

    /** `appendChild(el.cloneNode(true))`, the clone recorded by the element it copies. */
    method AppendClone(el: ElementId)
      modifies this
      ensures children == old(children) + [el]
    {
      children := children + [el];
    }

    /** `container.innerHTML`: the markup of the children, in order. */
    function InnerHTML(dom: Dom): string
      reads this
    {
      Markup(dom, children)
    }
  }

  function Markup(dom: Dom, nodes: seq<ElementId>): string {
    if nodes == [] then "" else dom.cloneMarkup(nodes[0]) + Markup(dom, nodes[1..])
  }

  /** `getOuterHTML(el)`. */
  method GetOuterHTML(dom: Dom, el: ElementId) returns (html: string)
    ensures html == OuterHTML(dom, el)
    ensures dom.outerHTML(el) != "" ==> html == dom.outerHTML(el)
    ensures dom.outerHTML(el) == "" ==> html == dom.cloneMarkup(el)
  {
    if dom.outerHTML(el) != "" {
      html := dom.outerHTML(el);
    } else {
      var container := new Container();
      container.AppendClone(el);
      html := container.InnerHTML(dom);
      assert container.children == [el];
      assert html == Markup(dom, [el]);
      assert Markup(dom, [el]) == dom.cloneMarkup(el) + Markup(dom, []);
    }
  }

  /** `vm.$options`, as far as `$mount` reads and writes it. `render` and `staticRenderFns` are
      None while unset (or falsy). */
  class ComponentOptions {
    var render: Option<RenderFn>
    var staticRenderFns: Option<seq<RenderFn>>
    var template: TemplateOption
    var delimiters: Value
    var comments: Value

    constructor (template: TemplateOption, render: Option<RenderFn>, delimiters: Value, comments: Value)
      ensures this.template == template && this.render == render && staticRenderFns == None
      ensures this.delimiters == delimiters && this.comments == comments
    {
      this.template := template;
      this.render := render;
      this.staticRenderFns := None;
      this.delimiters := delimiters;
      this.comments := comments;
    }
  }

  /** A component instance; `options` is `this.$options`. */
  class Component {
    const options: ComponentOptions

    constructor (options: ComponentOptions)
      ensures this.options == options
    {
      this.options := options;
    }

    /** `vm.$mount(el, hydrating)` with the compiler. `warnings` are the messages passed to `warn`. */
    method Mount(el: ElArg, hydrating: Option<bool>, env: Env) returns (result: MountResult, warnings: seq<string>)
      modifies options
      ensures options.template == old(options.template)
      ensures options.delimiters == old(options.delimiters) && options.comments == old(options.comments)
      // refused: <html> or <body>
      ensures IsDocumentRoot(ResolveEl(el, env.dom), env.dom) ==>
                && result == ReturnedThis
                && warnings == (if env.production then [] else [RootWarning])
                && unchanged(options)
      // an existing render function wins over any template
      ensures !IsDocumentRoot(ResolveEl(el, env.dom), env.dom) && old(options.render).Some? ==>
                && result == MountCalled(ResolveEl(el, env.dom), hydrating)
                && warnings == []
                && unchanged(options)
      // otherwise the template decides
      ensures !IsDocumentRoot(ResolveEl(el, env.dom), env.dom) && old(options.render).None? ==>
                var r := ResolveTemplate(old(options.template), ResolveEl(el, env.dom), env.dom, env.production);
                && warnings == r.warnings
                && (r.Invalid? ==> result == ReturnedThis && unchanged(options))
                && (r.Resolved? ==> result == MountCalled(ResolveEl(el, env.dom), hydrating))
                && (r.Resolved? && !Compilable(r.template) ==> unchanged(options))
                && (r.Resolved? && Compilable(r.template) ==>
                      var fns := env.compileToFunctions(r.template.value,
                                   CompileOptionsFor(env, old(options.delimiters), old(options.comments)));
                      && options.render == Some(fns.render)
                      && options.staticRenderFns == Some(fns.staticRenderFns))
    {
      warnings := [];
      var target := el;
      if ElTruthy(el) {
        target := match env.dom.query(el) case Some(e) => Element(e) case None => NoEl;
      }
      if target == Element(env.dom.body) || target == Element(env.dom.documentElement) {
        if !env.production {
          warnings := warnings + [RootWarning];
        }
        return ReturnedThis, warnings;
      }
      if options.render.None? {
        var option := options.template;
        var template: Option<string> := None;
        if TemplateTruthy(option) {
          match option {
            case TemplateString(s) =>
              template := Some(s);
              if s[0] == '#' {
                template := IdToTemplate(env.dom, s);
                if !env.production && !Compilable(template) {
                  warnings := warnings + [NotFoundWarning + s];
                }
              }
            case TemplateNode(n) =>
              template := Some(env.dom.innerHTML(n));
            case TemplateOther(text) =>
              if !env.production {
                warnings := warnings + [InvalidWarning + text];
              }
              return ReturnedThis, warnings;
            case NoTemplate =>
          }
        } else if target.Element? {
          var html := GetOuterHTML(env.dom, target.id);
          template := Some(html);
        }
        if Compilable(template) {
          var fns := env.compileToFunctions(template.value,
                       CompileOptionsFor(env, options.delimiters, options.comments));
          options.render := Some(fns.render);
          options.staticRenderFns := Some(fns.staticRenderFns);
        }
      }
      result := MountCalled(target, hydrating);
    }
  }
}
