# Template compiler front door and array interceptors, in Dafny

This project models four pieces of a Vue 2 style view library:

- The compiler factory (`src/compiler/create-compiler.js`). `createCompilerCreator(baseCompile)`
  returns `createCompiler(baseOptions)`, which returns `compile(template, options)`. Each call of
  `compile` layers the caller's options over the shared platform options in a fresh
  `finalOptions` object. It merges `modules` (base first) and layers `directives` (caller first,
  then base). It installs a `warn` sink that sorts each message into `errors` or `tips`. When
  `outputSourceRange` is requested outside production, the sink shifts source offsets by the
  length of the template's leading whitespace. Finally it runs `baseCompile` on the trimmed
  template and attaches the collected diagnostics.
- The default `baseCompile` (`src/compiler/index.js`): trim, `parse`, `optimize` unless
  `options.optimize` is exactly `false`, then `generate`.
- The overriding `$mount` of the full web build
  (`src/platforms/web/entry-runtime-with-compiler.js`). It refuses `<html>` and `<body>`, keeps
  an existing `render`, and otherwise resolves a template from a `#id` string, a plain string, a
  DOM node or the element's outer markup (`getOuterHTML`). A non-empty template is compiled into
  `$options.render` and `$options.staticRenderFns` before the runtime `mount` is called.
- The array mutator interceptors (`src/core/observer/array.js`). Seven mutating methods are
  patched: push, pop, shift, unshift, splice, sort and reverse. Each interceptor calls the
  original method, passes the newly inserted elements to `observeArray`, and calls `dep.notify`
  once. The original methods follow section 23.1.3 of ECMA-262 (Properties of the Array
  Prototype Object).

Modules, one per file:

- `JsValues`: JavaScript values and truthiness.
- `Whitespace`: what `trim` and the leading-whitespace match strip.
- `Diagnostics`: the two sinks and the `Collector` class holding `errors` and `tips`.
- `CompilerOptions`: `finalOptions` as a record with an explicit base and its own properties.
- `CreateCompiler`: the factories and `compile`.
- `CompilerIndex`: `baseCompile`.
- `ArrayPrototype`: the native mutators on sequences.
- `ObserverArray`: the patch loop and the `ObservedArray` class.
- `WebMount`: `$mount` and `getOuterHTML`.

Collaborators whose code is not part of this model enter as function-typed parameters or record
fields: `parse`, `optimize`, `generate`, `detectErrors`, `compileToFunctions`, `query` and the DOM
reads. The calls that `baseCompile` and `detectErrors` make to `options.warn` are returned as a
sequence of `Emission` records. `compile` feeds them to the collector in the order they were made.

## Notes

- The range sink is installed only when three things hold: an options object is given, the
  build is not a production build, and `outputSourceRange` is truthy.
- The record the range sink pushes keeps the message under the key `msg`.
- `options.optimize` disables the optimizer only when it is the boolean `false`. The value `0`
  and an absent key both run the optimizer.

## Model

| member | source | states |
|---|---|---|
| `Whitespace.LeadingSpaceLength` | src/compiler/create-compiler.js:30 | the length is that of the longest prefix made only of whitespace: every character before it is whitespace, the one at it is not |
| `Whitespace.Trim` | src/compiler/create-compiler.js:67 | the trimmed text is the slice of the original that starts after the leading whitespace; only whitespace follows it, and it neither starts nor ends with whitespace |
| `Whitespace.TrimIdempotent` | src/compiler/index.js:16 | trimming an already trimmed template changes nothing, so the second trim in `baseCompile` is harmless |
| `Whitespace.TrimmedOffset` | src/compiler/create-compiler.js:30-40 | offset p of the trimmed text is offset p + leading-whitespace length of the original text |
| `Diagnostics.Shape` | src/compiler/create-compiler.js:23-43 | the message is kept; the default sink pushes the bare message; the range sink pushes a record whose `start`/`end` exist exactly when the range has them, each equal to the original value plus the leading-whitespace length |
| `Diagnostics.Routed` | src/compiler/create-compiler.js:23-43 | a list never has more entries than there were calls; it stays empty when no call has its tip flag, and when every call has it, the list holds every call, shaped, in call order |
| `Diagnostics.RoutedPartition` | src/compiler/create-compiler.js:23-43 | every `warn` call lands in exactly one of `tips` and `errors` |
| `Diagnostics.RoutedMembers` | src/compiler/create-compiler.js:24 | a diagnostic is in the tip list (error list) if and only if it is the shaped form of a call with the tip flag set (unset) |
| `Diagnostics.RoutedAppend` | src/compiler/create-compiler.js:67-72 | calls made after `baseCompile` returned (by `detectErrors`) are appended after the earlier ones, in order |
| `Diagnostics.ShiftedStartLocates` | src/compiler/create-compiler.js:30-37 | a shifted `start` points at the same character of the untrimmed template as the parser's offset did in the trimmed one |
| `Diagnostics.Collector.Warn` | src/compiler/create-compiler.js:23-25 | `tips` grows by the shaped entry when the tip flag is set, `errors` otherwise; the other list is unchanged |
| `Diagnostics.Collector.WarnAll` | src/compiler/create-compiler.js:67-70 | a sequence of `warn` calls appends their shaped entries to the two lists in call order |
| `CompilerOptions.MergeOptions` | src/compiler/create-compiler.js:18-65 | the for-in copy loop and the merges build exactly `FinalOptionsOf(base, options, warn)`: own modules, own directive layer, every other caller key, the sink |
| `CompilerOptions.ReadsThroughToBase` | src/compiler/create-compiler.js:18 | the base stays the prototype unchanged, and every key other than `modules`, `directives` and `warn` that the caller did not pass reads the base's value |
| `CompilerOptions.OverrideWins` | src/compiler/create-compiler.js:57-62 | every caller key other than `modules`, `directives` and `warn` reads back with the caller's value |
| `CompilerOptions.ModulesMerged` | src/compiler/create-compiler.js:46-49 | with caller modules, the merged list is the base list (or empty) followed by the caller's, base first; otherwise `modules` reads through to the base |
| `CompilerOptions.DirectiveLookup` | src/compiler/create-compiler.js:51-56 | a directive name gives the caller's handler if the caller has it, else the base handler if the base has it, else nothing |
| `CompilerOptions.WarnIsSink` | src/compiler/create-compiler.js:58-65 | `finalOptions.warn` is the sink chosen by `compile`, even if the caller passed a `warn` key |
| `CreateCompiler.CreateCompilerCreator` | src/compiler/create-compiler.js:7-10 | the returned creator compiles with exactly the `baseCompile` it was given, and runs the given `detectErrors` |
| `CreateCompiler.CreateCompiler` | src/compiler/create-compiler.js:10-80 | every `compile` of the returned compiler merges into the `baseOptions` it was created with and runs the creator's own `baseCompile` and `detectErrors` |
| `CreateCompiler.SinkFor` | src/compiler/create-compiler.js:23-44 | the range sink is installed exactly when options are given, the build is not production and `outputSourceRange` is truthy; it shifts by the template's leading-whitespace length |
| `CreateCompiler.Compile` | src/compiler/create-compiler.js:12-74 | `baseCompile` gets the trimmed template and the merged options; the result has its AST and code; `errors`/`tips` are the routed calls of `baseCompile` followed by those of `detectErrors` (outside production), in order, and their lengths add up to the number of `warn` calls |
| `CompilerIndex.BaseCompile` | src/compiler/index.js:12-27 | `generate` always runs, on the optimized AST unless optimization is off; `render` and `staticRenderFns` are `generate`'s; the `warn` calls are `parse`'s, then the optimizer's when it runs, then `generate`'s |
| `CompilerIndex.OptimizeUnlessFalse` | src/compiler/index.js:17-20 | the optimizer is skipped exactly when `options.optimize` is the boolean `false`; when skipped, `generate` sees the parsed AST and the optimizer makes no `warn` call |
| `CompilerIndex.DoubleTrimHarmless` | src/compiler/index.js:16 | `baseCompile` on an already trimmed template gives the same result as on the untrimmed one |
| `CompilerIndex.DefaultCompilerCreator` | src/compiler/index.js:11-28 | the exported `createCompiler` is `createCompilerCreator` applied to the default pipeline: its `baseCompile` agrees with `BaseCompile` on every template and options |
| `CompilerIndex.DefaultParsesTrimmedTemplate` | src/compiler/index.js:16 | through `compile`, the default pipeline behaves as if the template had been trimmed once |
| `ArrayPrototype.ActualStart` | src/core/observer/array.js:28 | splice's start: a start within the array is kept, a start past the end becomes the length, a negative one counts from the end, and one before the beginning becomes 0 |
| `ArrayPrototype.ActualDeleteCount` | src/core/observer/array.js:28 | splice deletes nothing without arguments, everything from the start with one argument, and otherwise the requested count clamped to between 0 and what follows the start |
| `ArrayPrototype.SpliceOutcome` | src/core/observer/array.js:28 | `splice` returns the cut elements; the new array keeps what precedes the start, then has the inserted items, then what followed the cut |
| `ArrayPrototype.PushOutcome` | src/core/observer/array.js:28 | `push` keeps the array as a prefix, appends the arguments in order and returns the new length |
| `ArrayPrototype.UnshiftOutcome` | src/core/observer/array.js:28 | `unshift` puts the arguments in order before the old elements and returns the new length |
| `ArrayPrototype.PopOutcome` | src/core/observer/array.js:28 | `pop` on an empty array returns undefined and leaves it empty; otherwise the remaining array followed by the returned element is the old array |
| `ArrayPrototype.ShiftOutcome` | src/core/observer/array.js:28 | `shift` on an empty array returns undefined and leaves it empty; otherwise the returned element followed by the remaining array is the old array |
| `ArrayPrototype.Native` | src/core/observer/array.js:28 | `push` appends and `unshift` prepends the arguments and both return the new length; `pop`/`shift` remove and return the last/first element, or return undefined on an empty array; `splice` is `SpliceOutcome`; `reverse` mirrors the elements and returns the receiver |
| `ArrayPrototype.PopUndoesPush` | src/core/observer/array.js:28 | `pop` after `push(x)` restores the array and returns `x` |
| `ArrayPrototype.ShiftUndoesUnshift` | src/core/observer/array.js:28 | `shift` after `unshift(x)` restores the array and returns `x` |
| `ArrayPrototype.ReverseInvolution` | src/core/observer/array.js:28 | `reverse` twice restores the array |
| `ArrayPrototype.SpliceLength` | src/core/observer/array.js:28 | `splice` returns the removed elements, and the length changes by inserted minus removed |
| `ArrayPrototype.SpliceUndo` | src/core/observer/array.js:28 | splicing the removed elements back at the same start, over the inserted items, restores the array |
| `ObserverArray.MethodsToPatchExactlySeven` | src/core/observer/array.js:11-19 | exactly seven methods are patched, with distinct names, one per mutating method |
| `ObserverArray.PatchArrayMethods` | src/core/observer/array.js:24-49 | after the `forEach`, each of the seven names holds the mutator for its method, and no other name is installed |
| `ObserverArray.ResolveIntercepts` | src/core/observer/array.js:8-9 | a name is intercepted if and only if it is one of the seven; every other name reaches the inherited array method |
| `ObserverArray.Inserted` | src/core/observer/array.js:32-41 | `inserted` is set exactly for push, unshift and splice: all arguments for the first two, the arguments from index 2 on for splice |
| `ObserverArray.InsertedAreTheNewElements` | src/core/observer/array.js:32-43 | the elements passed to `observeArray` are exactly the new ones: new contents plus removed elements equal old contents plus observed items, as multisets |
| `ObserverArray.SpliceAccounting` | src/core/observer/array.js:38-39 | for splice, the arguments from index 2 on are exactly what enters the array |
| `ObserverArray.EffectsOf` | src/core/observer/array.js:43-46 | a call notifies exactly once, as its last effect, with one `observeArray` of the inserted items before it exactly for push, unshift and splice |
| `ObserverArray.ObservedArray.ApplyOriginal` | src/core/observer/array.js:26-28 | the contents and the returned value are those of the ECMA-262 method; sort rearranges and returns the receiver; nothing is observed |
| `ObserverArray.ObservedArray.Mutator` | src/core/observer/array.js:27-48 | the interceptor returns what the original method returns and leaves the same contents; then it logs `observeArray(inserted)` when there are inserted elements, and one notification that sees the new contents |
| `WebMount.ResolveEl` | src/platforms/web/entry-runtime-with-compiler.js:30 | a truthy `el` becomes the element `query` finds, or a falsy value when it finds none; a falsy `el` is left as it was |
| `WebMount.IdToTemplate` | src/platforms/web/entry-runtime-with-compiler.js:17-21 | the template exists exactly when the id selects an element, and is that element's `innerHTML` |
| `WebMount.ResolveTemplate` | src/platforms/web/entry-runtime-with-compiler.js:47-74 | exactly a truthy template that is neither a string nor a node is invalid, warning outside production; a `#id` string gives `idToTemplate`'s result, with the not-found warning exactly when that is empty and the build is not production; any other non-empty string is used verbatim; a node gives its `innerHTML`; a falsy template gives `el`'s outer markup when `el` is an element, and nothing otherwise |
| `WebMount.GetOuterHTML` | src/platforms/web/entry-runtime-with-compiler.js:111-118 | `outerHTML` when present, otherwise the markup of the clone placed in a fresh container |
| `WebMount.CompileOptionsFor` | src/platforms/web/entry-runtime-with-compiler.js:82-91 | `outputSourceRange` is on exactly outside production; the two newline flags come from the environment; `delimiters` and `comments` are the instance's |
| `WebMount.Component.Mount` | src/platforms/web/entry-runtime-with-compiler.js:26-105 | `<html>`/`<body>` returns `this` untouched with one warning outside production; an existing `render` is kept and `mount` is called; an invalid template returns `this`; a non-empty resolved template is compiled with the instance's `delimiters` and `comments` and `outputSourceRange` = non-production, and its functions are stored; an empty one leaves the options unchanged and still mounts |

## Left out

- `compileToFunctions` and `createCompileToFunctionFn`: `src/compiler/to-function.js` is not part of this model. The function cache and turning code into functions are not modelled; `$mount` receives `compileToFunctions` as a parameter.
- `parse`, `optimize`, `generate` and `detectErrors` have internals that are not part of this model. They are opaque function parameters, each returning the `warn` calls it made. The model keeps the order of those calls but not how they interleave with the passes' other work.
- `optimize` annotates the AST in place. The model lets it return the annotated AST together with its `warn` calls.
- `CompilerIndex.BaseCompile`: the AST is known only by identity, so the model does not check whether the optimizer's annotations are present.
- `Config` holds `modules` and `directives` as None when absent or falsy. A truthy non-array value under those keys is not modelled.
- The keys `modules`, `directives` and `warn` of `finalOptions` have their own readers. `CompilerOptions.Get` is only meant for the other keys.
- The prototype chain and the enumeration order of `for...in` are modelled as explicit maps with fallback lookup. The copy loop takes keys in an arbitrary order, which gives the same result.
- `process.env.NODE_ENV` is the boolean parameter `production`.
- `query`, `document.body`, `document.documentElement`, `innerHTML`, `outerHTML` and `cloneNode` are fields of the abstract `Dom` record. A null and an undefined lookup result are the same None. The warning that `query` itself may print is not modelled.
- In the program, `query` always returns an element: an unmatched selector gives a new empty `div`. The model's `Dom.query` may also return None. That is extra generality: every contract holds for every `Dom`, so no proved property depends on the None case.
- The `cached` memoizer behind `idToTemplate` is not modelled. The lookup is taken as a function of the id.
- `mark`, `measure` and `config.performance` (timing only) are not modelled.
- `warn` in `$mount` prints to the console. The model returns the messages as the `warnings` out-parameter.
- The runtime `mount` is not part of this model. The model records the arguments it is called with. `hydrating` is passed through unchanged.
- `WebMount.Component.Mount` also passes `shouldDecodeNewlines` and `shouldDecodeNewlinesForHref`. Both are environment flags here.
- `ObserverArray.ObservedArray.Mutator`: for `sort` it states only that the elements are rearranged. The comparator's order is not modelled.
- `ArrayPrototype.Native` is not defined for `sort` for the same reason. `SortOutcome` describes sort instead.
- `ArrayPrototype.ToInteger` converts integers and booleans. Strings and objects are treated as 0, which is right only for non-numeric strings and plain objects. Fractions, NaN and infinities are not representable in `JsValues.Value`.
- The length limit of 2^53 - 1 on arrays, with the TypeError of `push` and `unshift` past it, is not modelled. Neither are sparse arrays.
- `observeArray` and `dep.notify` are not modelled internally. They appear as entries of the `effects` log.
- Methods that are not patched are modelled only as the decision to dispatch to `Array.prototype`.
- `src/core/global-api/index.js`, `src/core/instance/index.js` and `src/platforms/web/compiler/index.js` are not modelled. They only wire up the registry and the constructor, and create the web compiler from the platform `baseOptions`.
- Cache stability and the no-op fallback render belong to `compileToFunctions`, which is not part of this model.
