/** The default `baseCompile` (src/compiler/index.js): trim, parse, optionally optimize, generate. */
module CompilerIndex {
  import opened JsValues
  import opened Whitespace
  import opened Diagnostics
  import opened CompilerOptions
  import opened CreateCompiler

  /** `parse`'s AST and the calls it made to `options.warn`. */
  datatype Parsed = Parsed(ast: Ast, emitted: seq<Emission>)

  /** The AST as it stands after `optimize`'s static annotations, and the calls it made to
      `options.warn`. */
  datatype Optimized = Optimized(ast: Ast, emitted: seq<Emission>)

  /** `generate`'s code and the calls it made to `options.warn`. */
  datatype Code = Code(render: string, staticRenderFns: seq<string>, emitted: seq<Emission>)

  /** The three passes, whose implementations are not part of this model. */
  datatype Stages = Stages(
    parse: (string, FinalOptions) -> Parsed,
    optimize: (Ast, FinalOptions) -> Optimized,
    generate: (Ast, FinalOptions) -> Code)

  /** `options.optimize !== false`: only the boolean `false` turns the optimizer off. */
  predicate ShouldOptimize(options: FinalOptions) {
    Get(options, "optimize") != Some(Bool(false))
  }

  /** The AST `baseCompile` hands to `generate`. */
  function OptimizedAst(stages: Stages, template: string, options: FinalOptions): Ast {
    var ast := stages.parse(Trim(template), options).ast;
    if ShouldOptimize(options) then stages.optimize(ast, options).ast else ast
  }

  /** The calls the optimizer made to `options.warn`: none when it does not run. */
  function OptimizerEmitted(stages: Stages, template: string, options: FinalOptions): seq<Emission> {
    var ast := stages.parse(Trim(template), options).ast;
    if ShouldOptimize(options) then stages.optimize(ast, options).emitted else []
  }

  function BaseCompile(stages: Stages, template: string, options: FinalOptions): (c: Compiled)
    ensures c.ast == OptimizedAst(stages, template, options)
    ensures c.render == stages.generate(c.ast, options).render
    ensures c.staticRenderFns == stages.generate(c.ast, options).staticRenderFns
    // the warn calls in the order the passes run: parse, optimize (when it runs), generate
    ensures c.emitted == stages.parse(Trim(template), options).emitted
                         + OptimizerEmitted(stages, template, options)
                         + stages.generate(c.ast, options).emitted
  {
    var parsed := stages.parse(Trim(template), options);
    var optimized := if ShouldOptimize(options) then stages.optimize(parsed.ast, options) else Optimized(parsed.ast, []);
    var code := stages.generate(optimized.ast, options);
    Compiled(optimized.ast, code.render, code.staticRenderFns, parsed.emitted + optimized.emitted + code.emitted)
  }

  /** Which ASTs `generate` sees: the optimized one unless `optimize` is exactly `false`. An absent
      key, `true` and every other value (the falsy `0` included) run the optimizer. */
  lemma OptimizeUnlessFalse(stages: Stages, template: string, options: FinalOptions)
    ensures var parsed := stages.parse(Trim(template), options).ast;
            && (Get(options, "optimize") == Some(Bool(false)) ==>
                  OptimizedAst(stages, template, options) == parsed && OptimizerEmitted(stages, template, options) == [])
            && (Get(options, "optimize") != Some(Bool(false)) ==>
                  && OptimizedAst(stages, template, options) == stages.optimize(parsed, options).ast
                  && OptimizerEmitted(stages, template, options) == stages.optimize(parsed, options).emitted)
  {
  }

  /** `compile` trims the template and `baseCompile` trims it again: the result is the same as
      trimming once. */
  lemma {:induction false} DoubleTrimHarmless(stages: Stages, template: string, options: FinalOptions)
    ensures BaseCompile(stages, Trim(template), options) == BaseCompile(stages, template, options)
  {
    TrimIdempotent(template);
  }

  /** `createCompiler = createCompilerCreator(baseCompile)`. */
  function DefaultCompilerCreator(stages: Stages, detectErrors: Ast -> seq<Emission>): (creator: CompilerCreator)
    ensures forall t, o :: creator.baseCompile(t, o) == BaseCompile(stages, t, o)
    ensures creator.detectErrors == detectErrors
  {
    CreateCompilerCreator((t, o) => BaseCompile(stages, t, o), detectErrors)
  }

  /** With the default compiler, `parse` receives the template trimmed once. */
  lemma {:induction false} DefaultParsesTrimmedTemplate(stages: Stages, detectErrors: Ast -> seq<Emission>,
                                                       template: string, options: FinalOptions)
    ensures var c := DefaultCompilerCreator(stages, detectErrors).baseCompile(Trim(template), options);
            c == BaseCompile(stages, template, options)
  {
    DoubleTrimHarmless(stages, template, options);
  }
}
