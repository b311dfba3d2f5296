/** The options merge of `compile` (src/compiler/create-compiler.js): a fresh `finalOptions`
    whose prototype is the shared platform base, layered with the caller's options. */
module CompilerOptions {
  import opened JsValues
  import opened Diagnostics

  /** A platform transform pass, known by identity. */
  type ModuleId = nat

  /** A directive transform handler, known by identity. */
  type HandlerId = nat

  /** A `CompilerOptions` object. `modules` and `directives` are the two keys `compile`
      merges; None stands for an absent or falsy value. `fields` holds the other keys. */
  datatype Config = Config(
    modules: Option<seq<ModuleId>>,
    directives: Option<map<string, HandlerId>>,
    fields: map<string, Value>)

  /** `finalOptions`: an object whose prototype is `base`, together with the own properties
      `compile` wrote on it. `ownDirectives` holds the own entries of the fresh directives
      object whose prototype is `base.directives`. `warn` is the property written last. */
  datatype FinalOptions = FinalOptions(
    base: Config,
    ownModules: Option<seq<ModuleId>>,
    ownDirectives: Option<map<string, HandlerId>>,
    own: map<string, Value>,
    warn: Sink)

  /** `baseOptions.modules || []` */
  function BaseModules(base: Config): seq<ModuleId> {
    if base.modules.Some? then base.modules.value else []
  }

  /** Reading `finalOptions.modules`. */
  function ModulesOf(f: FinalOptions): Option<seq<ModuleId>> {
    if f.ownModules.Some? then f.ownModules else f.base.modules
  }

  /** Reading `finalOptions.directives[name]`. */
  function DirectiveOf(f: FinalOptions, name: string): Option<HandlerId> {
    if f.ownDirectives.Some? && name in f.ownDirectives.value then Some(f.ownDirectives.value[name])
    else if f.base.directives.Some? && name in f.base.directives.value then Some(f.base.directives.value[name])
    else None
  }

  /** Reading `finalOptions[key]` for a key other than `modules`, `directives` and `warn`
      (those three have the readers above and the `warn` slot). None: no such property. */
  function Get(f: FinalOptions, key: string): Option<Value> {
    if key in f.own then Some(f.own[key])
    else if key in f.base.fields then Some(f.base.fields[key])
    else None
  }

  /** Reading `config[key]` on an options object itself, for a key other than `modules` and
      `directives`. */
  function FieldOf(config: Config, key: string): Option<Value> {
    if key in config.fields then Some(config.fields[key]) else None
  }

  /** The own properties `compile` gives `finalOptions` for caller options `options` (None when
      no options object is passed) and the sink `warn` chosen for this call. */
  function FinalOptionsOf(base: Config, options: Option<Config>, warn: Sink): FinalOptions {
    match options
    case None => FinalOptions(base, None, None, map[], warn)
    case Some(o) =>
      FinalOptions(
        base,
        if o.modules.Some? then Some(BaseModules(base) + o.modules.value) else None,
        o.directives,
        o.fields - {"modules", "directives"},
        warn)
  }

  /** Builds `finalOptions` as `compile` does before calling `baseCompile`: merge modules, layer directives, copy every
      other key in a for-in loop, then install the sink. */
  method MergeOptions(base: Config, options: Option<Config>, warn: Sink) returns (f: FinalOptions)
    ensures f == FinalOptionsOf(base, options, warn)
  {
    f := FinalOptions(base, None, None, map[], Collect);
    if options.Some? {
      var o := options.value;
      if o.modules.Some? {
        f := f.(ownModules := Some(BaseModules(base) + o.modules.value));
      }
      if o.directives.Some? {
        f := f.(ownDirectives := Some(o.directives.value));
      }
      var keys := o.fields.Keys;
      while keys != {}
        invariant keys <= o.fields.Keys
        invariant forall k :: k in f.own <==> k in o.fields && k !in keys && k != "modules" && k != "directives"
        invariant forall k :: k in f.own ==> f.own[k] == o.fields[k]
        invariant f.base == base && f.ownModules == FinalOptionsOf(base, options, warn).ownModules
        invariant f.ownDirectives == o.directives
        decreases keys
      {
        var key :| key in keys;
        if key != "modules" && key != "directives" {
          f := f.(own := f.own[key := o.fields[key]]);
        }
        keys := keys - {key};
      }
      assert f.own == o.fields - {"modules", "directives"};
    }
    f := f.(warn := warn);
  }

  /** The merge keeps the shared base as the prototype and never changes it: every key the
      caller did not override, other than `modules`, `directives` and `warn`, reads through to the
      base. */
  lemma ReadsThroughToBase(base: Config, options: Option<Config>, warn: Sink, key: string)
    requires key != "modules" && key != "directives" && key != "warn"
    requires options.None? || key !in options.value.fields
    ensures FinalOptionsOf(base, options, warn).base == base
    ensures Get(FinalOptionsOf(base, options, warn), key) == FieldOf(base, key)
  {
  }

  /** Every overridden key other than `modules`, `directives` and `warn` reads back with the caller's value. */
  lemma OverrideWins(base: Config, o: Config, warn: Sink, key: string)
    requires key in o.fields && key != "modules" && key != "directives" && key != "warn"
    ensures Get(FinalOptionsOf(base, Some(o), warn), key) == Some(o.fields[key])
  {
  }

  /** Caller modules come after the base modules, base first; without them, `modules` reads
      through to the base. */
  lemma ModulesMerged(base: Config, options: Option<Config>, warn: Sink)
    ensures var f := FinalOptionsOf(base, options, warn);
            if options.Some? && options.value.modules.Some? then
              && ModulesOf(f).Some?
              && |ModulesOf(f).value| == |BaseModules(base)| + |options.value.modules.value|
              && ModulesOf(f).value[..|BaseModules(base)|] == BaseModules(base)
              && ModulesOf(f).value[|BaseModules(base)|..] == options.value.modules.value
            else ModulesOf(f) == base.modules
  {
  }

  /** Directive lookup: the caller's handler, else the base handler, else absent. */
  lemma DirectiveLookup(base: Config, options: Option<Config>, warn: Sink, name: string)
    ensures var f := FinalOptionsOf(base, options, warn);
            var mine := options.Some? && options.value.directives.Some? && name in options.value.directives.value;
            var theirs := base.directives.Some? && name in base.directives.value;
            && (mine ==> DirectiveOf(f, name) == Some(options.value.directives.value[name]))
            && (!mine && theirs ==> DirectiveOf(f, name) == Some(base.directives.value[name]))
            && (!mine && !theirs ==> DirectiveOf(f, name).None?)
  {
  }

  /** `finalOptions.warn` is the sink chosen by `compile`, whatever the caller passed as `warn`. */
  lemma WarnIsSink(base: Config, options: Option<Config>, warn: Sink)
    ensures FinalOptionsOf(base, options, warn).warn == warn
  {
  }
}
