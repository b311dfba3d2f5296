/** `createCompilerCreator`, `createCompiler` and `compile` (src/compiler/create-compiler.js). */
module CreateCompiler {
  import opened JsValues
  import opened Whitespace
  import opened Diagnostics
  import opened CompilerOptions

  /** A template AST, known by identity; its node structure is not part of this model. */
  datatype Ast = Ast(id: nat)

  /** What a `baseCompile` produces, together with the calls it made to `options.warn`, in order. */
  datatype Compiled = Compiled(ast: Ast, render: string, staticRenderFns: seq<string>, emitted: seq<Emission>)

  /** What `compile` returns: the compiled code with the collected `errors` and `tips`. */
  datatype CompiledResult = CompiledResult(
    ast: Ast, render: string, staticRenderFns: seq<string>,
    errors: seq<Diagnostic>, tips: seq<Diagnostic>)

  /** The closure `createCompiler` returned by `createCompilerCreator(baseCompile)`. It also holds
      `detectErrors`, imported by the source file, as the calls to `warn` it makes for an AST. */
  datatype CompilerCreator = CompilerCreator(
    baseCompile: (string, FinalOptions) -> Compiled,
    detectErrors: Ast -> seq<Emission>)

  /** The closures `createCompiler(baseOptions)` returns, sharing `baseOptions`. */
  datatype Compiler = Compiler(creator: CompilerCreator, baseOptions: Config)

  /** `createCompilerCreator(baseCompile)`: a creator that compiles with the given `baseCompile`. */
  function CreateCompilerCreator(baseCompile: (string, FinalOptions) -> Compiled,
                                 detectErrors: Ast -> seq<Emission>): (creator: CompilerCreator)
    ensures forall t, o :: creator.baseCompile(t, o) == baseCompile(t, o)
    ensures forall ast :: creator.detectErrors(ast) == detectErrors(ast)
  {
    CompilerCreator(baseCompile, detectErrors)
  }

  /** `createCompiler(baseOptions)`: every `compile` of the result merges into this `baseOptions` and
      runs this creator's `baseCompile` and `detectErrors`. */
  function CreateCompiler(creator: CompilerCreator, baseOptions: Config): (compiler: Compiler)
    ensures compiler.baseOptions == baseOptions
    ensures compiler.creator == creator
  {
    Compiler(creator, baseOptions)
  }

  /** The sink `compile` installs: the range sink exactly when options are given, the build is
      not a production build and `options.outputSourceRange` is truthy. */
  function SinkFor(template: string, options: Option<Config>, production: bool): (s: Sink)
    ensures s.CollectShifted? <==>
              options.Some? && !production && TruthyProperty(FieldOf(options.value, "outputSourceRange"))
    ensures s.CollectShifted? ==> s.leadingSpaceLength == LeadingSpaceLength(template)
  {
    if options.Some? && !production && TruthyProperty(FieldOf(options.value, "outputSourceRange"))
    then CollectShifted(LeadingSpaceLength(template))
    else Collect
  }

  /** The calls made to the sink during one `compile`: those of `baseCompile`, then (outside
      production) those of `detectErrors` on the resulting AST. */
  function Emitted(creator: CompilerCreator, c: Compiled, production: bool): seq<Emission> {
    c.emitted + (if production then [] else creator.detectErrors(c.ast))
  }

  /** `compile(template, options)`. The merged options go to `baseCompile` together with the
      trimmed template; the result carries every diagnostic in emission order, split by the tip
      flag and shaped by the installed sink. */
  method Compile(compiler: Compiler, template: string, options: Option<Config>, production: bool)
    returns (compiled: CompiledResult)
    ensures var f := FinalOptionsOf(compiler.baseOptions, options, SinkFor(template, options, production));
            var c := compiler.creator.baseCompile(Trim(template), f);
            var emitted := Emitted(compiler.creator, c, production);
            && compiled.ast == c.ast
            && compiled.render == c.render
            && compiled.staticRenderFns == c.staticRenderFns
            && compiled.errors == Routed(f.warn, emitted, false)
            && compiled.tips == Routed(f.warn, emitted, true)
            // every diagnostic of the call ends up in exactly one of `errors` and `tips`
            && |compiled.errors| + |compiled.tips| == |emitted|
  {
    var warn := Collect;
    if options.Some? {
      if !production && TruthyProperty(FieldOf(options.value, "outputSourceRange")) {
        warn := CollectShifted(LeadingSpaceLength(template));
      }
    }
    assert warn == SinkFor(template, options, production);
    var finalOptions := MergeOptions(compiler.baseOptions, options, warn);
    var collector := new Collector(warn);
    var c := compiler.creator.baseCompile(Trim(template), finalOptions);
    collector.WarnAll(c.emitted);
    assert collector.errors == Routed(warn, c.emitted, false);
    assert collector.tips == Routed(warn, c.emitted, true);
    if !production {
      var late := compiler.creator.detectErrors(c.ast);
      collector.WarnAll(late);
      RoutedAppend(warn, c.emitted, late, false);
      RoutedAppend(warn, c.emitted, late, true);
      assert Emitted(compiler.creator, c, production) == c.emitted + late;
    } else {
      assert Emitted(compiler.creator, c, production) == c.emitted;
    }
    RoutedPartition(warn, Emitted(compiler.creator, c, production));
    compiled := CompiledResult(c.ast, c.render, c.staticRenderFns, collector.errors, collector.tips);
  }
}
