# Compiled factory map — a Dafny model

This project models the core of `pmall/container-compilation`, a PHP library that
compiles the factories of a dependency-injection container into one PHP file so
that later processes load them instead of resolving them again.

Two classes are modelled:

- `CompiledFactoryMap` (module `Compilation`): the `factories()` call. It decides
  whether an existing compiled file is trusted (caching on and the file exists).
  Otherwise it checks that the path is writable, queries the delegate factory map
  once, and compiles every factory in the delegate's order. It writes the file
  only when all of them compile, then returns what loading the file yields. The
  factory compiler is created lazily by `compiled()`, when the first callable
  factory reaches it, and kept for the object's lifetime.
- `AstAnalyzerAdapter` (module `FactoryCompilation`): turns a closure into its
  source text when the analyser reports no captured context, and throws a
  `LogicException` otherwise.

The filesystem is abstract (module `Storage`). It records whether the compiled
file exists, whether it or its parent directory is writable, the file's text,
and what `require` gives for it: the array it returns, or the exception loading
it throws (a `ParseError`, or a `TypeError` when it does not return an array).
A call to `factories()` is the pure function `Compilation.Factories`. It maps the collaborators, the object's fields
and the filesystem to an `Outcome`: the returned array or the exception thrown,
the object afterwards (its `compiler` field), the filesystem afterwards, and
whether the delegate was queried. The delegate factory map is represented by
what its `factories()` gives: an array with distinct ids (the `Bindings` subset
type), or the exception it throws. Each factory records whether PHP accepts it
as a `callable`, since `compiled(callable $callable)` checks that on entry. The
collaborators whose code is not part of this model are function-valued fields
of `Compilation.Env`:

- the abstract-syntax-tree analyser (`Closure -> Result<Analysis, Throwable>`);
- `Compiler::__invoke` (`(Compiler, Factory) -> Result<string, Throwable>`);
- `Utils::ArrayStr` (`seq<Entry> -> string`);
- the wording of PHP's `TypeError` for a non-callable argument (`Factory -> string`).

Writing a compiled file stores two things: the text `"<?php" + PHP_EOL + PHP_EOL +
"return " + ArrayStr(compiled) + ";"`, and, as what `require` returns, the compiled
entries themselves. Each loaded callable is represented by the source it is
evaluated from. This relies on `Utils::ArrayStr` producing a literal that
evaluates to the array it was given.

Where the code and the repository's tests disagree, the model follows the code.
`spec/CompiledFactoryMap.spec.php:20-88` expects an empty path to bypass caching
and return the delegate's array. `factories()` has no such branch, and PHP reports
that `''` does not exist and that `dirname('')` is not writable. So the call
throws a `RuntimeException` (`CompilationProperties.EmptyPathIsNotBypassed`). The
code also writes the target file directly with `file_put_contents`. It does not
write a temporary file and rename it, so the model claims no atomicity.

## Model

| member | source | states |
|---|---|---|
| FactoryCompilation.Invoke | src/Factories/AstAnalyzerAdapter.php:29-38 | succeeds exactly when the analysis succeeds with an empty context, and then returns the analysed code; an exception of the analyser passes through unchanged; a non-empty context throws the `LogicException` "Closures with context are not compilable" with code 0 and no previous exception |
| FactoryCompilation.InvokeMatchesCompilesTo | src/Factories/AstAnalyzerAdapter.php:31-34 | the adapter returns a string `s` for a closure if and only if the analysis succeeds, the closure captures nothing and `s` is its analysed code |
| FactoryCompilation.CapturedVariableRejected | src/Factories/AstAnalyzerAdapter.php:33-37 | one captured variable, whatever its name or value, makes the adapter throw, and no string is ever returned for that closure |
| FactoryCompilation.OnlyContextEmptinessMatters | src/Factories/AstAnalyzerAdapter.php:33 | two analyses with the same code and the same context emptiness give the same outcome: captured names and values do not matter |
| Storage.RenderRoundTrip | src/CompiledFactoryMap.php:86-90 | the written document is `<?php`, two line ends, `return `, the array literal, `;`, and the literal can be recovered from it unchanged |
| Compilation.New | src/CompiledFactoryMap.php:52-58 | construction stores the delegate, cache flag and path, and leaves the compiler unset |
| Compilation.Compiled | src/CompiledFactoryMap.php:118-129 | a non-callable factory gives the `TypeError` of the parameter check and leaves the compiler as it was; otherwise an existing compiler is reused, or one around an `AstAnalyzerAdapter` is created and kept, and the factory is compiled by the compiler kept; the outcome does not depend on whether the compiler existed before |
| Compilation.CompileEach | src/CompiledFactoryMap.php:74-84 | succeeds exactly when every factory compiles; then the entries are the delegate's ids in order, each with its compiled source; otherwise it reports the first failing id in delegate order with what was thrown for it; afterwards a compiler is stored exactly when one was before or some factory up to the stopping point was callable, and a stored compiler is never replaced |
| Compilation.Factories | src/CompiledFactoryMap.php:63-96 | the delegate is queried exactly when the file is not trusted and the path is writable; a trusted file is left unchanged and the call gives what loading it gives; an unwritable path throws the `RuntimeException` naming the path before the delegate is queried; an exception of the delegate passes through; every exception leaves the filesystem unchanged; the file is written exactly when all factories compile, and then it holds the rendered compiled array and the call returns it; a compile failure throws a `LogicException` naming the first failing id with the original exception as previous; a compiler is created only while compiling, exactly when some factory reached `compiled()`'s body, and is never reset |
| CompilationProperties.TrustedFileIsLoaded | src/CompiledFactoryMap.php:65-95 | with caching on and an existing file, the delegate is not queried, the file is unchanged, and the result is what loading the existing file gives |
| CompilationProperties.RegeneratesIffNotTrusted | src/CompiledFactoryMap.php:65-72 | on a writable path, the delegate is queried if and only if caching is off or the file is missing, so caching off recompiles even when a file exists |
| CompilationProperties.WritabilityDecides | src/CompiledFactoryMap.php:103-110 | when the file is not trusted, the call throws the not-writable `RuntimeException` without querying the delegate if and only if the file exists and is not writable, or is missing and its directory is not writable |
| CompilationProperties.UnwritablePathRaises | src/CompiledFactoryMap.php:65-70 | a missing file under a read-only directory, or an existing read-only file with caching off, throws a `RuntimeException` without querying the delegate or writing |
| CompilationProperties.UncompilableKeepsFile | src/CompiledFactoryMap.php:74-92 | if any delegate factory fails to compile, a `LogicException` is thrown, a missing file stays missing and an existing file is left exactly as it was |
| CompilationProperties.NonCallableFirstLeavesCompilerUnset | src/CompiledFactoryMap.php:118-121 | a non-callable first factory makes the call throw a `LogicException` naming its id and wrapping the `TypeError`, while the compiler stays unset and the file unchanged |
| CompilationProperties.DelegateExceptionPropagates | src/CompiledFactoryMap.php:72 | an exception thrown by the delegate's `factories()` is what the call throws, unwrapped, with the file and the object unchanged |
| CompilationProperties.RegeneratedFileMatchesDelegate | src/CompiledFactoryMap.php:74-95 | after a successful regeneration the returned ids are the delegate's ids in order and are distinct, and the file holds the rendered array and loads back as the returned array |
| CompilationProperties.EmptyDelegateWritesEmptyArray | src/CompiledFactoryMap.php:86-92 | an empty delegate array still writes a file that returns an empty array, the call returns an empty array, and no compiler is created |
| CompilationProperties.EmptyPathIsNotBypassed | src/CompiledFactoryMap.php:65-70 | an empty path is not a pass-through: the call throws the not-writable `RuntimeException` and the delegate is not queried |
| CompilationProperties.SecondCallHitsCache | src/CompiledFactoryMap.php:65 | with caching on, after one successful call the next call trusts the file, does not query the delegate, and returns the same array with the filesystem unchanged |
| CompilationProperties.RepeatedCallsAreStable | src/CompiledFactoryMap.php:65-95 | with caching on, after a first successful call any number of further calls return the same array, query nothing and leave the file as the first call left it |
| CompilationProperties.CompilerCreatedAtMostOnce | src/CompiledFactoryMap.php:120-126 | over any sequence of calls, whatever filesystem each call finds, at most one compiler is created, none if one existed, and a created compiler is kept |
| CompilationProperties.FromConstructionOneCompiler | src/CompiledFactoryMap.php:57 | from a freshly constructed object, any sequence of calls creates at most one compiler, the one wrapping an `AstAnalyzerAdapter` around the analyser |

## Left out

- The kind dispatch inside `Compiler` is not part of this model. Which factories compile, and to what text, is the uninterpreted `Env.compile`. In particular, whether the compiler sends closures to the `AstAnalyzerAdapter` is not modelled.
- The text `Utils::ArrayStr` produces, including its quoting of ids, is not part of this model. It is the uninterpreted `Env.arrayStr`. That `require` of the written document yields the compiled entries is taken as that collaborator's contract.
- The internals of the abstract-syntax-tree analyser belong to an external library. It is the uninterpreted `AstAnalyzerAdapter.analyze`, giving code plus captured context, or an exception.
- Real I/O (`file_exists`, `is_writable`, `file_put_contents`, `require`) is replaced by the abstract `Storage.FileSystem` of the one compiled path. Other paths and `chmod` are not modelled.
- Write failures after the writability check (disk full, a race with another process) are not modelled. The code ignores `file_put_contents`' return value, and the model assumes the write succeeds.
- A file newly created by `file_put_contents` is modelled as writable. The usual umask gives the owner write permission.
- `PHP_EOL` is fixed to `"\n"`. On Windows it is `"\r\n"`.
- PHP array keys are modelled as strings. Integer keys and PHP's conversion of numeric-string keys are not modelled. The ids of the delegate's array are distinct by the `Bindings` subset type, as in any PHP array.
- The delegate factory map is modelled by what its `factories()` gives. The same object always gives the same array or the same exception.
- Whether a value is callable is a fixed property of the factory. PHP decides it from the functions and classes loaded at the time of the call.
- What `require` gives for a pre-existing file is a fixed property of that file. Its dependence on the PHP code it contains is not modelled.
- Running the generated callables with a container, and whether they behave like the original factories, depends on PHP evaluation and is not modelled.
- "Each `__invoke` performs exactly one analysis" is a property of the call count. The pure model calls the analyser once in `FactoryCompilation.Invoke` but states no count. The adapter is immutable by construction.
- Exceptions thrown while constructing the compiler, the adapter or the analyser are not modelled.
- `spec/AstAnalyzerAdaper.spec.php` targets a namespace and a `compiled()` method absent from `src`. The adapter model follows `src/Factories/AstAnalyzerAdapter.php`.
- Concurrent processes sharing the compiled file are not modelled. The code performs no locking and no atomic replace.
